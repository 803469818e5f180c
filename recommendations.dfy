/** Placeholder recommendations for the legacy chat page: the categories of
    the keywords found in the message, pool entries ranked by how many of
    those categories they list, and a random sample of the pool when nothing
    overlaps.  The random sample is a parameter: the pool positions chosen. */
module Recommendations {
  import opened Text
  import opened Sorting

  datatype Recommendation = Recommendation(
    title: string,
    author: string,
    kind: string,
    reason: string,
    categories: seq<string>)

  const MaxResults: nat := 5

  const SampleSize: nat := 4

  const RecommendationPool: seq<Recommendation> := [
    Recommendation("O Poder do Habito", "Charles Duhigg", "livro",
      "Explora como habitos moldam decisoes e produtividade no dia a dia.",
      ["habito", "produtividade", "comportamento"]),
    Recommendation("Deep Work", "Cal Newport", "livro",
      "Tecnicas de concentracao e trabalho focado para aprendizado profundo.",
      ["produtividade", "foco", "aprendizado"]),
    Recommendation("Huberman Lab Podcast", "Andrew Huberman", "podcast",
      "Pesquisas cientificas acessiveis sobre neurociencia e funcionamento do cerebro.",
      ["neurociencia", "cerebro", "ciencia", "saude"]),
    Recommendation("Crash Course - Psychology", "Hank Green", "video",
      "Introducao completa a psicologia com linguagem acessivel.",
      ["psicologia", "comportamento", "cerebro"]),
    Recommendation("O Projeto Aristoteles (Google)", "Google re:Work", "artigo",
      "Pesquisa sobre o que torna equipes eficazes e produtivas.",
      ["lideranca", "equipe", "gestao"]),
    Recommendation("Atomic Habits", "James Clear", "livro",
      "Metodo pratico para construir bons habitos e eliminar os ruins.",
      ["habito", "produtividade", "comportamento"]),
    Recommendation("O Monge e o Executivo", "James C. Hunter", "livro",
      "Uma fabula sobre lideranca servidora e gestao de pessoas.",
      ["lideranca", "gestao", "equipe"]),
    Recommendation("TED Talk: How Great Leaders Inspire Action", "Simon Sinek", "video",
      "Explica o conceito do Golden Circle e como lideres inspiram.",
      ["lideranca", "comunicacao", "inspiracao"]),
    Recommendation("O Gene Egoista", "Richard Dawkins", "livro",
      "Visao evolutiva sobre comportamento e cooperacao entre seres vivos.",
      ["ciencia", "biologia", "comportamento"]),
    Recommendation("Lex Fridman Podcast", "Lex Fridman", "podcast",
      "Conversas aprofundadas sobre tecnologia, IA, ciencia e filosofia.",
      ["tecnologia", "ia", "ciencia", "filosofia"]),
    Recommendation("Se Trumbica na Programacao", "Fabio Akita", "video",
      "Videos sobre carreira em tecnologia, programacao e aprendizado.",
      ["tecnologia", "programacao", "carreira"]),
    Recommendation("Clean Code", "Robert C. Martin", "livro",
      "Principios e boas praticas para escrever codigo limpo e legivel.",
      ["programacao", "tecnologia", "engenharia"]),
    Recommendation("Coursera - Learning How to Learn", "Barbara Oakley", "curso",
      "Curso sobre tecnicas de aprendizado baseadas em neurociencia.",
      ["aprendizado", "neurociencia", "produtividade"]),
    Recommendation("Sapiens: Uma Breve Historia da Humanidade", "Yuval Noah Harari", "livro",
      "Panorama da historia humana conectando biologia, cultura e sociedade.",
      ["historia", "filosofia", "ciencia"]),
    Recommendation("Como Fazer Amigos e Influenciar Pessoas", "Dale Carnegie", "livro",
      "Principios classicos de comunicacao e relacionamento interpessoal.",
      ["comunicacao", "lideranca", "comportamento"]),
    Recommendation("Podcast Naruhodo!", "B9", "podcast",
      "Explora curiosidades cientificas e como o cerebro funciona.",
      ["ciencia", "cerebro", "curiosidade"]),
    Recommendation("Se Trumbica na Programacao", "Fabio Akita", "video",
      "Conteudo tecnico sobre arquitetura de software e boas praticas.",
      ["programacao", "tecnologia", "engenharia"]),
    Recommendation("O Dilema da Inovacao", "Clayton Christensen", "livro",
      "Analisa por que empresas bem-sucedidas podem falhar frente a inovacoes.",
      ["inovacao", "gestao", "tecnologia"]),
    Recommendation("Artigo: Spaced Repetition", "Gwern Branwen", "artigo",
      "Analise detalhada sobre repeticao espacada como tecnica de memorizacao.",
      ["aprendizado", "memoria", "produtividade"]),
    Recommendation("Mindset: A Nova Psicologia do Sucesso", "Carol Dweck", "livro",
      "Pesquisa sobre mentalidade fixa vs. de crescimento e impacto no desempenho.",
      ["psicologia", "aprendizado", "comportamento"])
  ]

  /** Keyword to category, in the dictionary's insertion order. */
  const KeywordMap: seq<(string, string)> := [
    ("lider", "lideranca"), ("lideranca", "lideranca"), ("gestao", "gestao"),
    ("gerenciar", "gestao"), ("equipe", "equipe"), ("time", "equipe"),
    ("habito", "habito"), ("rotina", "habito"), ("produtividade", "produtividade"),
    ("foco", "foco"), ("concentracao", "foco"), ("cerebro", "cerebro"),
    ("neuro", "neurociencia"), ("neurociencia", "neurociencia"), ("psicologia", "psicologia"),
    ("comportamento", "comportamento"), ("ciencia", "ciencia"), ("programacao", "programacao"),
    ("codigo", "programacao"), ("software", "programacao"), ("tecnologia", "tecnologia"),
    ("ia", "ia"), ("inteligencia artificial", "ia"), ("aprendizado", "aprendizado"),
    ("aprender", "aprendizado"), ("estudar", "aprendizado"), ("estudo", "aprendizado"),
    ("comunicacao", "comunicacao"), ("historia", "historia"), ("filosofia", "filosofia"),
    ("inovacao", "inovacao"), ("memoria", "memoria"), ("livro", "livro"),
    ("podcast", "podcast"), ("video", "video"), ("curso", "curso"),
    ("saude", "saude"), ("biologia", "biologia")
  ]

  /** The categories whose keyword occurs in the text. */
  function Matched(keywords: seq<(string, string)>, text: string): set<string>
  {
    if keywords == [] then {}
    else
      var last := keywords[|keywords| - 1];
      Matched(keywords[..|keywords| - 1], text) + (if Contains(text, last.0) then {last.1} else {})
  }

  /** A category is matched exactly when one of its keywords occurs in the text. */
  lemma {:induction false} MatchedExact(keywords: seq<(string, string)>, text: string, c: string)
    ensures c in Matched(keywords, text) <==>
            exists i :: 0 <= i < |keywords| && keywords[i].1 == c && Contains(text, keywords[i].0)
  {
    if keywords != [] {
      var init := keywords[..|keywords| - 1];
      MatchedExact(init, text, c);
      if exists i :: 0 <= i < |init| && init[i].1 == c && Contains(text, init[i].0) {
        var i :| 0 <= i < |init| && init[i].1 == c && Contains(text, init[i].0);
        assert keywords[i] == init[i];
      }
      if exists i :: 0 <= i < |keywords| && keywords[i].1 == c && Contains(text, keywords[i].0) {
        var i :| 0 <= i < |keywords| && keywords[i].1 == c && Contains(text, keywords[i].0);
        if i < |init| { assert init[i] == keywords[i]; }
      }
    }
  }

  function CategorySet(r: Recommendation): set<string>
  {
    set c | c in r.categories
  }

  /** The number of matched categories an entry lists. */
  function Overlap(m: set<string>, r: Recommendation): nat
  {
    |m * CategorySet(r)|
  }

  /** A positive overlap is a category both matched and listed. */
  lemma OverlapShares(m: set<string>, r: Recommendation)
    ensures Overlap(m, r) > 0 <==> exists c :: c in m && c in r.categories
  {
    if Overlap(m, r) > 0 {
      var c :| c in m * CategorySet(r);
    }
    if exists c :: c in m && c in r.categories {
      var c :| c in m && c in r.categories;
      assert c in m * CategorySet(r);
    }
  }

  datatype Scored = Scored(overlap: nat, rec: Recommendation)

  function ScoreOf(s: Scored): int { s.overlap }

  /** The entries with a positive overlap, in pool order, each with it. */
  function ScoredPool(m: set<string>, pool: seq<Recommendation>): seq<Scored>
  {
    if pool == [] then []
    else
      var rec := pool[|pool| - 1];
      ScoredPool(m, pool[..|pool| - 1]) + (if Overlap(m, rec) > 0 then [Scored(Overlap(m, rec), rec)] else [])
  }

  /** Each scored entry is a pool entry that overlaps, carrying its overlap. */
  ghost predicate Faithful(m: set<string>, pool: seq<Recommendation>, s: Scored)
  {
    s.rec in pool && s.overlap == Overlap(m, s.rec) && s.overlap > 0
  }

  /** `s` lists the overlapping entries of `pool`, each with its overlap, at
      the increasing pool positions `idx`. */
  ghost predicate ScoredAt(m: set<string>, pool: seq<Recommendation>, s: seq<Scored>, idx: seq<nat>)
  {
    && |idx| == |s|
    && (forall k :: 0 <= k < |s| ==> idx[k] < |pool| && s[k] == Scored(Overlap(m, pool[idx[k]]), pool[idx[k]]))
    && (forall k, l :: 0 <= k < l < |s| ==> idx[k] < idx[l])
    && (forall i :: 0 <= i < |pool| && Overlap(m, pool[i]) > 0 ==> exists k :: 0 <= k < |s| && idx[k] == i)
  }

  lemma ScoredAtTaken(m: set<string>, init: seq<Recommendation>, rec: Recommendation, si: seq<Scored>, prev: seq<nat>)
    requires ScoredAt(m, init, si, prev) && Overlap(m, rec) > 0
    ensures ScoredAt(m, init + [rec], si + [Scored(Overlap(m, rec), rec)], prev + [|init|])
  {
    var pool := init + [rec];
    var s := si + [Scored(Overlap(m, rec), rec)];
    var idx := prev + [|init|];
    forall k | 0 <= k < |s| ensures idx[k] < |pool| && s[k] == Scored(Overlap(m, pool[idx[k]]), pool[idx[k]]) {
      if k < |si| { assert s[k] == si[k] && idx[k] == prev[k] && pool[prev[k]] == init[prev[k]]; }
    }
    forall i | 0 <= i < |pool| && Overlap(m, pool[i]) > 0 ensures exists k :: 0 <= k < |s| && idx[k] == i {
      if i < |init| {
        assert pool[i] == init[i];
        var k :| 0 <= k < |si| && prev[k] == i;
        assert idx[k] == i;
      } else {
        assert idx[|s| - 1] == i;
      }
    }
  }

  lemma ScoredAtSkipped(m: set<string>, init: seq<Recommendation>, rec: Recommendation, si: seq<Scored>, prev: seq<nat>)
    requires ScoredAt(m, init, si, prev) && Overlap(m, rec) == 0
    ensures ScoredAt(m, init + [rec], si, prev)
  {
    var pool := init + [rec];
    forall k | 0 <= k < |si| ensures prev[k] < |pool| && si[k] == Scored(Overlap(m, pool[prev[k]]), pool[prev[k]]) {
      assert pool[prev[k]] == init[prev[k]];
    }
    forall i | 0 <= i < |pool| && Overlap(m, pool[i]) > 0 ensures exists k :: 0 <= k < |si| && prev[k] == i {
      assert i < |init| && pool[i] == init[i];
    }
  }

  /** The scored entries sit at increasing pool positions, and every
      overlapping pool entry is scored. */
  lemma {:induction false} ScoredPoolPositions(m: set<string>, pool: seq<Recommendation>) returns (idx: seq<nat>)
    ensures ScoredAt(m, pool, ScoredPool(m, pool), idx)
  {
    if pool == [] {
      idx := [];
    } else {
      var init := pool[..|pool| - 1];
      var rec := pool[|pool| - 1];
      var prev := ScoredPoolPositions(m, init);
      var si := ScoredPool(m, init);
      assert pool == init + [rec];
      if Overlap(m, rec) > 0 {
        ScoredAtTaken(m, init, rec, si, prev);
        idx := prev + [|init|];
      } else {
        ScoredAtSkipped(m, init, rec, si, prev);
        assert ScoredPool(m, pool) == si + [] == si;
        idx := prev;
      }
    }
  }

  lemma ScoredPoolFaithful(m: set<string>, pool: seq<Recommendation>)
    ensures forall k :: 0 <= k < |ScoredPool(m, pool)| ==> Faithful(m, pool, ScoredPool(m, pool)[k])
  {
    var idx := ScoredPoolPositions(m, pool);
  }

  /** `scored.sort(key=overlap, reverse=True)`. */
  function Ranked(m: set<string>, pool: seq<Recommendation>): seq<Scored>
  {
    SortBy(ScoredPool(m, pool), ScoreOf, Greater)
  }

  function Recs(s: seq<Scored>): (r: seq<Recommendation>)
    ensures |r| == |s|
  {
    seq(|s|, i requires 0 <= i < |s| => s[i].rec)
  }

  /** The keyword path's list: the five best ranked entries. */
  function KeywordResults(m: set<string>, pool: seq<Recommendation>): seq<Recommendation>
  {
    Recs(Take(Ranked(m, pool), MaxResults))
  }

  /** The keyword path returns at most five pool entries, each sharing a
      category with the matched ones, by non-increasing overlap. */
  lemma KeywordResultsRanked(m: set<string>, pool: seq<Recommendation>)
    ensures var r := KeywordResults(m, pool);
      && |r| <= MaxResults
      && (forall k :: 0 <= k < |r| ==> r[k] in pool && exists c :: c in m && c in r[k].categories)
      && (forall i, j :: 0 <= i < j < |r| ==> Overlap(m, r[i]) >= Overlap(m, r[j]))
  {
    var s := ScoredPool(m, pool);
    var ranked := Ranked(m, pool);
    var top := Take(ranked, MaxResults);
    var r := KeywordResults(m, pool);
    ScoredPoolFaithful(m, pool);
    SortByMultiset(s, ScoreOf, Greater);
    GreaterIsStrictTotalOrder();
    SortBySorted(s, ScoreOf, Greater);
    forall k | 0 <= k < |ranked| ensures Faithful(m, pool, ranked[k]) {
      assert ranked[k] in multiset(s);
      var j :| 0 <= j < |s| && s[j] == ranked[k];
    }
    forall k | 0 <= k < |r| ensures r[k] in pool && exists c :: c in m && c in r[k].categories {
      assert r[k] == ranked[k].rec;
      OverlapShares(m, r[k]);
    }
    forall i, j | 0 <= i < j < |r| ensures Overlap(m, r[i]) >= Overlap(m, r[j]) {
      assert r[i] == ranked[i].rec && r[j] == ranked[j].rec;
      assert !Greater(ScoreOf(ranked[j]), ScoreOf(ranked[i]));
    }
  }

  /** Entries with the same overlap keep their pool order. */
  lemma KeywordTiesInPoolOrder(m: set<string>, pool: seq<Recommendation>, v: nat)
    ensures KeyClass(Ranked(m, pool), ScoreOf, v) == KeyClass(ScoredPool(m, pool), ScoreOf, v)
  {
    GreaterIsStrictTotalOrder();
    SortByStable(ScoredPool(m, pool), ScoreOf, Greater, v);
  }

  /** A `random.sample` of `min(4, n)` distinct positions of a pool of `n`. */
  predicate ValidSample(pick: seq<nat>, n: nat)
  {
    && |pick| == (if SampleSize < n then SampleSize else n)
    && (forall i :: 0 <= i < |pick| ==> pick[i] < n)
    && (forall i, j :: 0 <= i < j < |pick| ==> pick[i] != pick[j])
  }

  function Sample(pool: seq<Recommendation>, pick: seq<nat>): (r: seq<Recommendation>)
    requires ValidSample(pick, |pool|)
    ensures |r| == |pick|
    ensures forall i :: 0 <= i < |r| ==> r[i] == pool[pick[i]]
  {
    seq(|pick|, i requires 0 <= i < |pick| => pool[pick[i]])
  }

  /** `generate_placeholder_recommendations` over a keyword map and a pool. */
  function Recommend(keywords: seq<(string, string)>, pool: seq<Recommendation>, message: string,
                     pick: seq<nat>): seq<Recommendation>
    requires ValidSample(pick, |pool|)
  {
    var m := Matched(keywords, Lower(message));
    if m != {} && KeywordResults(m, pool) != [] then KeywordResults(m, pool) else Sample(pool, pick)
  }

  /** The keyword path's list is empty exactly when no entry overlaps, and
      nothing overlaps when nothing matched. */
  lemma KeywordResultsEmpty(m: set<string>, pool: seq<Recommendation>)
    ensures KeywordResults(m, pool) == [] <==> forall i :: 0 <= i < |pool| ==> Overlap(m, pool[i]) == 0
    ensures m == {} ==> KeywordResults(m, pool) == []
  {
    assert |KeywordResults(m, pool)| == |Take(Ranked(m, pool), MaxResults)|;
    assert |Ranked(m, pool)| == |ScoredPool(m, pool)|;
    ScoredPoolEmpty(m, pool);
  }

  /** No entry is scored exactly when no entry overlaps. */
  lemma {:induction false} ScoredPoolEmpty(m: set<string>, pool: seq<Recommendation>)
    ensures ScoredPool(m, pool) == [] <==> forall i :: 0 <= i < |pool| ==> Overlap(m, pool[i]) == 0
  {
    if pool != [] {
      var init := pool[..|pool| - 1];
      var rec := pool[|pool| - 1];
      ScoredPoolEmpty(m, init);
      assert forall i :: 0 <= i < |init| ==> init[i] == pool[i];
      assert ScoredPool(m, pool) == ScoredPool(m, init) + (if Overlap(m, rec) > 0 then [Scored(Overlap(m, rec), rec)] else []);
    }
  }

  /** The keyword path is taken exactly when some matched category is listed
      by an entry; otherwise the result is the sample of `min(4, n)` distinct
      pool positions. */
  lemma RecommendPaths(keywords: seq<(string, string)>, pool: seq<Recommendation>, message: string,
                       pick: seq<nat>)
    requires ValidSample(pick, |pool|)
    ensures var m := Matched(keywords, Lower(message));
      var r := Recommend(keywords, pool, message, pick);
      && ((exists i :: 0 <= i < |pool| && Overlap(m, pool[i]) > 0) ==> r == KeywordResults(m, pool))
      && ((forall i :: 0 <= i < |pool| ==> Overlap(m, pool[i]) == 0) ==>
            && r == Sample(pool, pick)
            && |r| == (if SampleSize < |pool| then SampleSize else |pool|))
  {
    var m := Matched(keywords, Lower(message));
    KeywordResultsEmpty(m, pool);
  }

  const MediaCategories: set<string> := {"livro", "podcast", "video", "curso"}

  /** A category no pool entry lists. */
  predicate Unlisted(c: string)
  {
    forall i :: 0 <= i < |RecommendationPool| ==> c !in RecommendationPool[i].categories
  }

  /** No pool entry lists a media category. */
  lemma PoolHasNoMediaCategory()
    ensures forall i :: 0 <= i < |RecommendationPool| ==> MediaCategories * CategorySet(RecommendationPool[i]) == {}
  {
    BookUnlisted();
    PodcastUnlisted();
    VideoUnlisted();
    CourseUnlisted();
    assert forall c :: c in MediaCategories ==> Unlisted(c);
  }

  lemma BookUnlisted() ensures Unlisted("livro") {}

  lemma PodcastUnlisted() ensures Unlisted("podcast") {}

  lemma VideoUnlisted() ensures Unlisted("video") {}

  lemma CourseUnlisted() ensures Unlisted("curso") {}

  /** When only media categories match (a message saying just "livro",
      "podcast", "video" or "curso"), the keyword path finds nothing and
      the result is the random sample. */
  lemma MediaOnlyFallsBack(message: string, pick: seq<nat>)
    requires ValidSample(pick, |RecommendationPool|)
    requires Matched(KeywordMap, Lower(message)) <= MediaCategories
    ensures Recommend(KeywordMap, RecommendationPool, message, pick) == Sample(RecommendationPool, pick)
  {
    var m := Matched(KeywordMap, Lower(message));
    PoolHasNoMediaCategory();
    forall i | 0 <= i < |RecommendationPool| ensures Overlap(m, RecommendationPool[i]) == 0 {
      assert m * CategorySet(RecommendationPool[i]) <= MediaCategories * CategorySet(RecommendationPool[i]);
    }
    RecommendPaths(KeywordMap, RecommendationPool, message, pick);
  }

  /** One more keyword adds its category when it occurs. */
  lemma MatchedStep(keywords: seq<(string, string)>, i: nat, text: string)
    requires i < |keywords|
    ensures Matched(keywords[..i + 1], text) ==
            Matched(keywords[..i], text) + (if Contains(text, keywords[i].0) then {keywords[i].1} else {})
  {
    assert keywords[..i + 1][..i] == keywords[..i];
  }

  /** One more pool entry is scored when it overlaps. */
  lemma ScoredPoolStep(m: set<string>, pool: seq<Recommendation>, j: nat)
    requires j < |pool|
    ensures ScoredPool(m, pool[..j + 1]) ==
            ScoredPool(m, pool[..j]) + (if Overlap(m, pool[j]) > 0 then [Scored(Overlap(m, pool[j]), pool[j])] else [])
  {
    assert pool[..j + 1][..j] == pool[..j];
  }

  /** `generate_placeholder_recommendations` as the page runs it, on the
      page's keyword map and pool. */
  method GenerateRecommendations(message: string, pick: seq<nat>) returns (r: seq<Recommendation>)
    requires ValidSample(pick, |RecommendationPool|)
    ensures r == Recommend(KeywordMap, RecommendationPool, message, pick)
  {
    r := RecommendFrom(KeywordMap, RecommendationPool, message, pick);
  }

  /** The ranking as the page computes it, for any keyword map and pool: a
      loop collecting the matched categories, a loop scoring the pool, the
      sort and the cut. */
  method RecommendFrom(keywords: seq<(string, string)>, pool: seq<Recommendation>, message: string,
                       pick: seq<nat>) returns (r: seq<Recommendation>)
    requires ValidSample(pick, |pool|)
    ensures r == Recommend(keywords, pool, message, pick)
  {
    var text := Lower(message);
    var matched: set<string> := {};
    var i := 0;
    while i < |keywords|
      invariant 0 <= i <= |keywords|
      invariant matched == Matched(keywords[..i], text)
    {
      MatchedStep(keywords, i, text);
      if Contains(text, keywords[i].0) {
        matched := matched + {keywords[i].1};
      }
      i := i + 1;
    }
    assert keywords[..i] == keywords;
    if matched != {} {
      var scored: seq<Scored> := [];
      var j := 0;
      while j < |pool|
        invariant 0 <= j <= |pool|
        invariant scored == ScoredPool(matched, pool[..j])
      {
        ScoredPoolStep(matched, pool, j);
        var rec := pool[j];
        var overlap := |matched * CategorySet(rec)|;
        if overlap > 0 {
          scored := scored + [Scored(overlap, rec)];
        }
        j := j + 1;
      }
      assert pool[..j] == pool;
      var ranked := SortBy(scored, ScoreOf, Greater);
      var results := Recs(Take(ranked, MaxResults));
      if results != [] {
        return results;
      }
    }
    r := Sample(pool, pick);
  }
}
