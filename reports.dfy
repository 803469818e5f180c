/** The reports page: how many notes carry each tag, the tags in name order,
    which of them have enough notes to unlock a report, and the illustrative
    report shown for a tag.  The page exists in two copies that share the
    counting and the unlock rule and differ only in their texts (one with
    accents, an older one without); each copy's texts are a `Catalogue`. */
module Reports {
  import opened Records
  import opened Text
  import opened Sorting
  import opened TagPicker

  // ---------------------------------------------------------------------------
  // Counting notes per tag
  // ---------------------------------------------------------------------------

  /** One entry of the counter, in the order the tags were first met. */
  datatype TagCount = TagCount(tag: string, count: nat)

  function Keys(cs: seq<TagCount>): (r: seq<string>)
    ensures |r| == |cs|
    ensures forall i :: 0 <= i < |cs| ==> r[i] == cs[i].tag
  {
    if cs == [] then [] else [cs[0].tag] + Keys(cs[1..])
  }

  /** The counter's value for a tag: 0 when it has no entry. */
  function Lookup(cs: seq<TagCount>, t: string): nat
  {
    if cs == [] then 0 else if cs[0].tag == t then cs[0].count else Lookup(cs[1..], t)
  }

  /** A well-formed counter: distinct keys, every count positive. */
  predicate Counter(cs: seq<TagCount>)
  {
    && (forall i, j :: 0 <= i < j < |cs| ==> cs[i].tag != cs[j].tag)
    && (forall i :: 0 <= i < |cs| ==> cs[i].count > 0)
  }

  /** `counts[tag] += 1`: the entry incremented, or a new entry of 1 at the end. */
  function Bump(cs: seq<TagCount>, t: string): (r: seq<TagCount>)
  {
    if cs == [] then [TagCount(t, 1)]
    else if cs[0].tag == t then [cs[0].(count := cs[0].count + 1)] + cs[1..]
    else [cs[0]] + Bump(cs[1..], t)
  }

  /** One note's tags counted, in order. */
  function BumpAll(cs: seq<TagCount>, tags: seq<string>): seq<TagCount>
  {
    if tags == [] then cs else Bump(BumpAll(cs, tags[..|tags| - 1]), tags[|tags| - 1])
  }

  /** `_count_notes_per_tag`: every note's tags counted, note by note. */
  function CountNotes(notes: seq<Note>): seq<TagCount>
  {
    if notes == [] then [] else BumpAll(CountNotes(notes[..|notes| - 1]), notes[|notes| - 1].tags)
  }

  /** The reference: how often a tag occurs over all notes' tag lists. */
  function Occurrences(notes: seq<Note>, t: string): nat
  {
    if notes == [] then 0 else Occurrences(notes[..|notes| - 1], t) + multiset(notes[|notes| - 1].tags)[t]
  }

  lemma {:induction false} LookupAbsent(cs: seq<TagCount>, t: string)
    requires t !in Keys(cs)
    ensures Lookup(cs, t) == 0
  {
    if cs != [] {
      assert Keys(cs[1..]) == Keys(cs)[1..];
      LookupAbsent(cs[1..], t);
    }
  }

  lemma {:induction false} LookupPresent(cs: seq<TagCount>, t: string)
    requires Counter(cs) && t in Keys(cs)
    ensures Lookup(cs, t) > 0
  {
    if cs[0].tag != t {
      assert Keys(cs[1..]) == Keys(cs)[1..];
      LookupPresent(cs[1..], t);
    }
  }

  /** Bumping keeps the counter well formed. */
  lemma {:induction false} BumpCounter(cs: seq<TagCount>, t: string)
    requires Counter(cs)
    ensures Counter(Bump(cs, t))
  {
    if cs != [] && cs[0].tag != t {
      var tail := cs[1..];
      BumpCounter(tail, t);
      BumpTagsFrom(tail, t);
      var r := Bump(cs, t);
      var rt := Bump(tail, t);
      assert r == [cs[0]] + rt;
      forall j | 0 < j < |r| ensures r[j].tag != cs[0].tag {
        assert rt[j - 1].tag in Keys(rt);
        assert cs[0].tag !in Keys(tail);
      }
    }
  }

  /** Bumping adds one to exactly the bumped tag and adds it to the keys. */
  lemma {:induction false} BumpCounts(cs: seq<TagCount>, t: string, u: string)
    requires Counter(cs)
    ensures Counter(Bump(cs, t))
    ensures Lookup(Bump(cs, t), u) == Lookup(cs, u) + (if u == t then 1 else 0)
    ensures u in Keys(Bump(cs, t)) <==> u in Keys(cs) || u == t
  {
    BumpCounter(cs, t);
    var r := Bump(cs, t);
    if cs == [] {
    } else if cs[0].tag == t {
      assert Keys(r) == [t] + Keys(cs)[1..] && Keys(cs) == [t] + Keys(cs)[1..];
      if u != t {
        assert Lookup(r, u) == Lookup(cs[1..], u);
      }
    } else {
      var tail := cs[1..];
      BumpCounts(tail, t, u);
      var rt := Bump(tail, t);
      assert r == [cs[0]] + rt;
      assert Keys(r) == [cs[0].tag] + Keys(rt) && Keys(cs) == [cs[0].tag] + Keys(tail);
    }
  }

  lemma {:induction false} BumpTagsFrom(cs: seq<TagCount>, t: string)
    ensures forall u :: u in Keys(Bump(cs, t)) ==> u in Keys(cs) || u == t
  {
    if cs != [] && cs[0].tag != t {
      BumpTagsFrom(cs[1..], t);
      assert Keys(Bump(cs, t)) == [cs[0].tag] + Keys(Bump(cs[1..], t));
      assert Keys(cs) == [cs[0].tag] + Keys(cs[1..]);
    } else if cs != [] {
      assert Keys(Bump(cs, t)) == Keys(cs);
    }
  }

  /** Counting one note adds each tag's number of occurrences in its list. */
  lemma {:induction false} BumpAllCounts(cs: seq<TagCount>, tags: seq<string>, u: string)
    requires Counter(cs)
    ensures Counter(BumpAll(cs, tags))
    ensures Lookup(BumpAll(cs, tags), u) == Lookup(cs, u) + multiset(tags)[u]
    ensures u in Keys(BumpAll(cs, tags)) <==> u in Keys(cs) || u in tags
  {
    if tags != [] {
      var init := tags[..|tags| - 1];
      var last := tags[|tags| - 1];
      BumpAllCounts(cs, init, u);
      BumpCounts(BumpAll(cs, init), last, u);
      assert tags == init + [last];
    }
  }

  /** The counter holds, for every tag, its number of occurrences; its keys
      are exactly the tags that occur, each once. */
  lemma {:induction false} CountNotesExact(notes: seq<Note>, u: string)
    ensures Counter(CountNotes(notes))
    ensures Lookup(CountNotes(notes), u) == Occurrences(notes, u)
    ensures u in Keys(CountNotes(notes)) <==> Occurrences(notes, u) > 0
  {
    if notes == [] {
    } else {
      var init := notes[..|notes| - 1];
      var tags := notes[|notes| - 1].tags;
      CountNotesExact(init, u);
      BumpAllCounts(CountNotes(init), tags, u);
      var cs := CountNotes(notes);
      if u in Keys(cs) { LookupPresent(cs, u); } else { LookupAbsent(cs, u); }
    }
  }

  /** `_count_notes_per_tag`'s two loops. */
  method CountNotesPerTag(notes: seq<Note>) returns (counts: seq<TagCount>)
    ensures counts == CountNotes(notes)
  {
    counts := [];
    for i := 0 to |notes|
      invariant counts == CountNotes(notes[..i])
    {
      assert notes[..i + 1][..i] == notes[..i];
      var tags := notes[i].tags;
      ghost var before := counts;
      for j := 0 to |tags|
        invariant counts == BumpAll(before, tags[..j])
      {
        assert tags[..j + 1][..j] == tags[..j];
        counts := Bump(counts, tags[j]);
      }
      assert tags[..|tags|] == tags;
    }
    assert notes[..|notes|] == notes;
  }

  // ---------------------------------------------------------------------------
  // The tag status list and the unlock rule
  // ---------------------------------------------------------------------------

  const MinNotesPerTag: nat := 10

  /** One row of the status card. */
  datatype TagStatus = TagStatus(tag: string, count: nat, available: bool, missing: int)

  function StatusOf(cs: seq<TagCount>, t: string): TagStatus
  {
    var count := Lookup(cs, t);
    TagStatus(t, count, count >= MinNotesPerTag, MinNotesPerTag - count)
  }

  function Self(s: string): string { s }

  /** `sorted(tag_counts.keys())`. */
  function AllTags(notes: seq<Note>): seq<string>
  {
    SortBy(Keys(CountNotes(notes)), Self, StrLt)
  }

  /** The counter's value for each listed tag is its occurrence count, and
      every occurring tag is listed. */
  lemma ListedCounts(notes: seq<Note>)
    ensures forall k :: 0 <= k < |AllTags(notes)| ==>
              Lookup(CountNotes(notes), AllTags(notes)[k]) == Occurrences(notes, AllTags(notes)[k])
              && Occurrences(notes, AllTags(notes)[k]) > 0
    ensures forall t :: Occurrences(notes, t) > 0 ==> t in AllTags(notes)
  {
    forall t ensures Lookup(CountNotes(notes), t) == Occurrences(notes, t)
                     && (t in AllTags(notes) <==> Occurrences(notes, t) > 0) {
      CountNotesExact(notes, t);
      AllTagsExact(notes, t);
    }
  }

  /** The status card: one row per occurring tag, each once, in strictly
      increasing name order; a row's count is the tag's occurrences over all
      notes, it is available iff that count reaches `MinNotesPerTag`, and it
      misses the difference. */
  function StatusList(notes: seq<Note>): (r: seq<TagStatus>)
    ensures |r| == |AllTags(notes)|
    ensures forall k :: 0 <= k < |r| ==> r[k] == StatusOf(CountNotes(notes), AllTags(notes)[k])
    ensures forall k :: 0 <= k < |r| ==>
              && r[k].count == Occurrences(notes, r[k].tag)
              && r[k].count > 0
              && (r[k].available <==> r[k].count >= MinNotesPerTag)
              && r[k].missing == MinNotesPerTag - r[k].count
    ensures forall k, l :: 0 <= k < l < |r| ==> StrLt(r[k].tag, r[l].tag)
    ensures forall t :: Occurrences(notes, t) > 0 ==> exists k :: 0 <= k < |r| && r[k].tag == t
  {
    ListedCounts(notes);
    AllTagsExact(notes, []);
    var cs := CountNotes(notes);
    var tags := AllTags(notes);
    seq(|tags|, k requires 0 <= k < |tags| => StatusOf(cs, tags[k]))
  }

  /** The tags listed are exactly those that occur, each once, in strictly
      increasing name order. */
  lemma AllTagsExact(notes: seq<Note>, u: string)
    ensures u in AllTags(notes) <==> Occurrences(notes, u) > 0
    ensures forall k, l :: 0 <= k < l < |AllTags(notes)| ==> StrLt(AllTags(notes)[k], AllTags(notes)[l])
  {
    var ks := Keys(CountNotes(notes));
    var r := AllTags(notes);
    CountNotesExact(notes, u);
    SortByMultiset(ks, Self, StrLt);
    StrLtIsStrictTotalOrder();
    SortBySorted(ks, Self, StrLt);
    assert u in r <==> u in multiset(r);
    forall k, l | 0 <= k < l < |r| ensures StrLt(r[k], r[l]) {
      DistinctSorted(ks, r, k, l);
    }
  }

  lemma DistinctSorted(ks: seq<string>, r: seq<string>, k: nat, l: nat)
    requires forall i, j :: 0 <= i < j < |ks| ==> ks[i] != ks[j]
    requires r == SortBy(ks, Self, StrLt)
    requires k < l < |r|
    ensures StrLt(r[k], r[l])
  {
    SortByMultiset(ks, Self, StrLt);
    StrLtIsStrictTotalOrder();
    SortBySorted(ks, Self, StrLt);
    NoDuplicatesOfMultiset(ks, r);
    assert !StrLt(r[l], r[k]);
    assert r[k] != r[l];
    StrLtConnected(r[k], r[l]);
  }

  lemma NoDuplicatesOfMultiset(ks: seq<string>, r: seq<string>)
    requires forall i, j :: 0 <= i < j < |ks| ==> ks[i] != ks[j]
    requires multiset(r) == multiset(ks)
    ensures forall i, j :: 0 <= i < j < |r| ==> r[i] != r[j]
  {
    forall x ensures multiset(ks)[x] <= 1 { DistinctCount(ks, x); }
    forall i, j | 0 <= i < j < |r| ensures r[i] != r[j] {
      RepeatCounted(r, i, j);
      assert multiset(r)[r[i]] <= 1;
    }
  }

  lemma RepeatCounted(r: seq<string>, i: nat, j: nat)
    requires i < j < |r|
    ensures r[i] == r[j] ==> multiset(r)[r[i]] >= 2
  {
    assert r == r[..i] + [r[i]] + r[i + 1..j] + [r[j]] + r[j + 1..];
  }

  lemma {:induction false} DistinctCount(ks: seq<string>, x: string)
    requires forall i, j :: 0 <= i < j < |ks| ==> ks[i] != ks[j]
    ensures multiset(ks)[x] <= 1
  {
    if ks != [] {
      DistinctCount(ks[1..], x);
      assert ks == [ks[0]] + ks[1..];
      if ks[0] == x {
        assert x !in ks[1..];
      }
    }
  }

  /** The unlock rule: a tag is unlocked iff it occurs in at least ten notes'
      tag lists; a locked tag lacks between 1 and 10 notes, 10 minus its count. */
  lemma StatusUnlock(notes: seq<Note>, k: nat)
    requires k < |StatusList(notes)|
    ensures var row := StatusList(notes)[k];
      && row.count == Occurrences(notes, row.tag) && row.count > 0
      && (row.available <==> Occurrences(notes, row.tag) >= MinNotesPerTag)
      && (!row.available ==> 0 < row.missing <= MinNotesPerTag && row.missing == MinNotesPerTag - row.count)
  {
    var t := AllTags(notes)[k];
    AllTagsExact(notes, t);
    CountNotesExact(notes, t);
  }

  // ---------------------------------------------------------------------------
  // The illustrative reports
  // ---------------------------------------------------------------------------

  datatype Report = Report(title: string, summary: string, insights: seq<string>, suggestion: string)

  datatype Canned = Canned(tag: string, report: Report)

  /** A copy's texts: the canned reports by tag, the title prefix, and the
      default report's insights and templates around the tag. */
  datatype Catalogue = Catalogue(canned: seq<Canned>, titlePrefix: string, insights: seq<string>,
                                 summaryBefore: string, summaryAfter: string,
                                 suggestionBefore: string, suggestionAfter: string)

  function CannedFor(cs: seq<Canned>, tag: string): Option<Report>
  {
    if cs == [] then None else if cs[0].tag == tag then Some(cs[0].report) else CannedFor(cs[1..], tag)
  }

  /** `_get_mock_report`. */
  function MockReport(cat: Catalogue, tag: string): Report
  {
    match CannedFor(cat.canned, tag)
    case Some(r) => r
    case None =>
      Report(cat.titlePrefix + Capitalize(tag),
             cat.summaryBefore + tag + cat.summaryAfter,
             cat.insights,
             cat.suggestionBefore + tag + cat.suggestionAfter)
  }

  lemma {:induction false} CannedForAt(cs: seq<Canned>, tag: string, i: nat)
    requires i < |cs| && cs[i].tag == tag
    requires forall j :: 0 <= j < |cs| && cs[j].tag == tag ==> j == i
    ensures CannedFor(cs, tag) == Some(cs[i].report)
  {
    if i > 0 {
      CannedForAt(cs[1..], tag, i - 1);
    }
  }

  lemma {:induction false} CannedForNone(cs: seq<Canned>, tag: string)
    requires forall j :: 0 <= j < |cs| ==> cs[j].tag != tag
    ensures CannedFor(cs, tag) == None
  {
    if cs != [] {
      CannedForNone(cs[1..], tag);
    }
  }

  /** A tag with a canned report gets it unchanged. */
  lemma KnownTagReport(cat: Catalogue, i: nat)
    requires i < |cat.canned|
    requires forall j :: 0 <= j < |cat.canned| && cat.canned[j].tag == cat.canned[i].tag ==> j == i
    ensures MockReport(cat, cat.canned[i].tag) == cat.canned[i].report
  {
    CannedForAt(cat.canned, cat.canned[i].tag, i);
  }

  /** Any other tag gets the prefix and the capitalised tag as title, the
      tag inside its summary and its suggestion, and the default insights. */
  lemma OtherTagReport(cat: Catalogue, tag: string)
    requires forall j :: 0 <= j < |cat.canned| ==> cat.canned[j].tag != tag
    ensures var r := MockReport(cat, tag);
      && r.title == cat.titlePrefix + Capitalize(tag)
      && |r.title| == |cat.titlePrefix| + |tag| + (if tag != [] && tag[0] == '\U{00DF}' then 1 else 0)
      && Contains(r.summary, tag) && Contains(r.suggestion, tag)
      && r.insights == cat.insights
  {
    CannedForNone(cat.canned, tag);
    var r := MockReport(cat, tag);
    assert OccursAt(tag, r.summary, |cat.summaryBefore|);
    ContainsAt(r.summary, tag, |cat.summaryBefore|);
    assert OccursAt(tag, r.suggestion, |cat.suggestionBefore|);
    ContainsAt(r.suggestion, tag, |cat.suggestionBefore|);
  }

  /** The canned tags of both copies. */
  const CannedTags: seq<string> := ["leadership", "programacao", "psicologia"]

  predicate WellFormed(cat: Catalogue)
  {
    |cat.canned| == |CannedTags| && forall i :: 0 <= i < |cat.canned| ==> cat.canned[i].tag == CannedTags[i]
  }

  /** In a copy, each of the three canned tags gets its own report, and every
      other tag the default one. */
  lemma CatalogueReports(cat: Catalogue, tag: string)
    requires WellFormed(cat)
    ensures forall i :: 0 <= i < 3 ==> MockReport(cat, CannedTags[i]) == cat.canned[i].report
    ensures tag !in CannedTags ==> MockReport(cat, tag).title == cat.titlePrefix + Capitalize(tag)
  {
    forall i | 0 <= i < 3 ensures MockReport(cat, CannedTags[i]) == cat.canned[i].report {
      KnownTagReport(cat, i);
    }
    if tag !in CannedTags {
      OtherTagReport(cat, tag);
    }
  }

  // ---------------------------------------------------------------------------
  // The two copies' texts
  // ---------------------------------------------------------------------------

  /** The accented copy. */
  const AppCatalogue := Catalogue(
    [ Canned("leadership", Report(
        "Relatório: Lideranca",
        "Com base nas suas anotações sobre lideranca, identificamos que você tem "
        + "explorado principalmente os conceitos de lideranca servidora e gestão de "
        + "equipes. Suas fontes combinam livros clássicos com conteúdos em vídeo, "
        + "indicando uma abordagem diversificada de aprendizado.",
        [ "Tema recorrente: a importância da escuta ativa e empatia na gestão de pessoas.",
          "Fontes mais utilizadas: livros e vídeos, com predominância de autores norte-americanos.",
          "Lacuna identificada: poucas notas sobre lideranca em contextos de tecnologia e startups." ],
        "Considere explorar conteúdos sobre lideranca técnica e gestão de equipes ágeis "
        + "para complementar sua base de conhecimento atual.")),
      Canned("programacao", Report(
        "Relatório: Programação",
        "Suas notas sobre programação cobrem boas práticas de código, arquitetura de "
        + "software e carreira em tecnologia. Há uma concentracao em fontes do tipo vídeo "
        + "e livro, com menor presenca de artigos técnicos.",
        [ "Foco principal: clean code, principios SOLID e boas práticas de engenharia.",
          "Fontes diversificadas entre livros, vídeos e cursos online.",
          "Pouca cobertura de tópicos como testes automatizados e DevOps." ],
        "Ampliar o estudo com artigos técnicos e documentacao oficial pode trazer "
        + "uma perspectiva mais pratica e atualizada.")),
      Canned("psicologia", Report(
        "Relatório: Psicologia",
        "O conjunto de notas sobre psicologia abrange comportamento humano, "
        + "neurociência aplicada e técnicas de aprendizado. Você demonstra interesse "
        + "em entender como o cérebro processa informacoes e forma hábitos.",
        [ "Tema central: conexão entre psicologia cognitiva e produtividade pessoal.",
          "Boa variedade de fontes: podcasts, vídeos e livros acadêmicos.",
          "Oportunidade: explorar psicologia organizacional e dinâmicas de grupo." ],
        "Aprofundar em psicologia comportamental aplicada ao trabalho pode "
        + "conectar esses aprendizados com suas notas sobre lideranca.")) ],
    "Relatório: ",
    [ "As notas cobrem diferentes tipos de fonte, indicando aprendizado diversificado.",
      "Foram identificados subtemas que se conectam com outras areas do seu conhecimento.",
      "Há espaco para explorar fontes complementares como artigos e cursos especializados." ],
    "Este relatório foi gerado com base nas suas anotações sobre o tema \"",
    "\". A análise identificou padrões nas fontes utilizadas, temas recorrentes e "
    + "possibilidades de aprofundamento.",
    "Considere revisar suas notas mais antigas sobre \"",
    "\" e buscar fontes atualizadas para manter seu conhecimento relevante.")

  /** The older copy, without accents. */
  const LegacyCatalogue := Catalogue(
    [ Canned("leadership", Report(
        "Relatorio: Lideranca",
        "Com base nas suas anotacoes sobre lideranca, identificamos que voce tem "
        + "explorado principalmente os conceitos de lideranca servidora e gestao de "
        + "equipes. Suas fontes combinam livros classicos com conteudos em video, "
        + "indicando uma abordagem diversificada de aprendizado.",
        [ "Tema recorrente: a importancia da escuta ativa e empatia na gestao de pessoas.",
          "Fontes mais utilizadas: livros e videos, com predominancia de autores norte-americanos.",
          "Lacuna identificada: poucas notas sobre lideranca em contextos de tecnologia e startups." ],
        "Considere explorar conteudos sobre lideranca tecnica e gestao de equipes ageis "
        + "para complementar sua base de conhecimento atual.")),
      Canned("programacao", Report(
        "Relatorio: Programacao",
        "Suas notas sobre programacao cobrem boas praticas de codigo, arquitetura de "
        + "software e carreira em tecnologia. Ha uma concentracao em fontes do tipo video "
        + "e livro, com menor presenca de artigos tecnicos.",
        [ "Foco principal: clean code, principios SOLID e boas praticas de engenharia.",
          "Fontes diversificadas entre livros, videos e cursos online.",
          "Pouca cobertura de topicos como testes automatizados e DevOps." ],
        "Ampliar o estudo com artigos tecnicos e documentacao oficial pode trazer "
        + "uma perspectiva mais pratica e atualizada.")),
      Canned("psicologia", Report(
        "Relatorio: Psicologia",
        "O conjunto de notas sobre psicologia abrange comportamento humano, "
        + "neurociencia aplicada e tecnicas de aprendizado. Voce demonstra interesse "
        + "em entender como o cerebro processa informacoes e forma habitos.",
        [ "Tema central: conexao entre psicologia cognitiva e produtividade pessoal.",
          "Boa variedade de fontes: podcasts, videos e livros academicos.",
          "Oportunidade: explorar psicologia organizacional e dinamicas de grupo." ],
        "Aprofundar em psicologia comportamental aplicada ao trabalho pode "
        + "conectar esses aprendizados com suas notas sobre lideranca.")) ],
    "Relatorio: ",
    [ "As notas cobrem diferentes tipos de fonte, indicando aprendizado diversificado.",
      "Foram identificados subtemas que se conectam com outras areas do seu conhecimento.",
      "Ha espaco para explorar fontes complementares como artigos e cursos especializados." ],
    "Este relatorio foi gerado com base nas suas anotacoes sobre o tema \"",
    "\". A analise identificou padroes nas fontes utilizadas, temas recorrentes e "
    + "possibilidades de aprofundamento.",
    "Considere revisar suas notas mais antigas sobre \"",
    "\" e buscar fontes atualizadas para manter seu conhecimento relevante.")

  /** The accented copy: canned reports for its three tags, "Relatório: "
      and the capitalised tag for any other. */
  lemma AppReports(tag: string)
    ensures MockReport(AppCatalogue, "leadership") == AppCatalogue.canned[0].report
    ensures MockReport(AppCatalogue, "leadership").title == "Relatório: Lideranca"
    ensures tag !in CannedTags ==>
              && MockReport(AppCatalogue, tag).title == "Relatório: " + Capitalize(tag)
              && MockReport(AppCatalogue, tag).insights == AppCatalogue.insights
  {
    assert WellFormed(AppCatalogue);
    CatalogueReports(AppCatalogue, tag);
    if tag !in CannedTags {
      OtherTagReport(AppCatalogue, tag);
    }
  }

  /** The older copy: the same rule with "Relatorio: ". */
  lemma LegacyReports(tag: string)
    ensures MockReport(LegacyCatalogue, "leadership") == LegacyCatalogue.canned[0].report
    ensures MockReport(LegacyCatalogue, "programacao").title == "Relatorio: Programacao"
    ensures tag !in CannedTags ==>
              && MockReport(LegacyCatalogue, tag).title == "Relatorio: " + Capitalize(tag)
              && MockReport(LegacyCatalogue, tag).insights == LegacyCatalogue.insights
  {
    assert WellFormed(LegacyCatalogue);
    CatalogueReports(LegacyCatalogue, tag);
    assert CannedTags[1] == "programacao";
    if tag !in CannedTags {
      OtherTagReport(LegacyCatalogue, tag);
    }
  }
}
