/** The guardrail's reading of the judge model's reply ("Sim"/"Não", meaning
    coherent and safe or not) and the fail-open wrapper around the call. */
module Guardrail {
  import opened Records
  import opened Text

  /** Trailing punctuation removed from the first token. */
  const Punctuation: set<char> := {'.', ',', ';', ':', '!'}

  const YesTokens: set<string> := {"sim", "yes"}

  const NoTokens: set<string> := {"não", "nao", "no"}

  /** Words whose presence anywhere makes an undecided reply negative. */
  const Markers: seq<string> := ["não", "nao", "incoerente", "perigoso", "sensível", "sensivel", "inseguro"]

  /** The reply trimmed and lower-cased. */
  function Cleaned(raw: string): string
  {
    Lower(Strip(raw))
  }

  /** Its first white-space token, trailing punctuation removed. */
  function VerdictToken(raw: string): string
  {
    Strip(StripRight(FirstToken(Cleaned(raw)), Punctuation))
  }

  predicate HasMarker(s: string)
  {
    exists i :: 0 <= i < |Markers| && Contains(s, Markers[i])
  }

  /** `_parse_verdict`: the first token decides when it is a yes or a no word;
      otherwise any negative word makes the reply negative; otherwise (an
      ambiguous or empty reply) it is read as coherent. */
  function ParseVerdict(raw: string): bool
  {
    var token := VerdictToken(raw);
    if token in YesTokens then true
    else if token in NoTokens then false
    else !HasMarker(Cleaned(raw))
  }

  /** `check_coherence` given the judge's reply, or the exception its call
      raised: an exception lets the answer through; a reply opening with a yes
      token passes whatever follows, and a refusal always rests on a no token
      or a negative word in the reply. */
  function CheckCoherence(reply: Outcome<string>): (ok: bool)
    ensures reply.Raised? ==> ok
    ensures reply.Done? ==> ok == ParseVerdict(reply.value)
    ensures reply.Done? && VerdictToken(reply.value) in YesTokens ==> ok
    ensures reply.Done? && VerdictToken(reply.value) in NoTokens ==> !ok
    ensures reply.Done? && !ok ==>
              (VerdictToken(reply.value) in NoTokens && Contains(Cleaned(reply.value), VerdictToken(reply.value)))
              || HasMarker(Cleaned(reply.value))
  {
    match reply
    case Raised(_) => true
    case Done(raw) =>
      TokenDecides(raw);
      TokenInCleaned(raw);
      ParseVerdict(raw)
  }

  /** The token is a piece of the cleaned reply. */
  lemma TokenInCleaned(raw: string)
    ensures Contains(Cleaned(raw), VerdictToken(raw))
  {
    TokenPiece(Cleaned(raw), Punctuation);
  }

  /** The token read off any string is a piece of that string. */
  lemma TokenPiece(c: string, trailing: set<char>)
    ensures Contains(c, Strip(StripRight(FirstToken(c), trailing)))
  {
    var f := FirstToken(c);
    var p := StripRight(f, trailing);
    assert f == c[..|f|] && p == f[..|p|];
    assert p == c[..|p|];
    var a := StripCharsInside(p, Whitespace);
    var t := StripChars(p, Whitespace);
    assert t == Strip(p);
    assert c[a..a + |t|] == t;
    ContainsAt(c, t, a);
  }

  /** A negative verdict always rests on a negative word in the cleaned reply:
      a no token, or one of the markers. */
  lemma NegativeHasReason(raw: string)
    requires !ParseVerdict(raw)
    ensures (VerdictToken(raw) in NoTokens && Contains(Cleaned(raw), VerdictToken(raw))) || HasMarker(Cleaned(raw))
  {
    TokenInCleaned(raw);
  }

  /** The first token takes precedence over the scan: a yes token makes the
      reply positive whatever negative words follow, and a no token makes it
      negative. */
  lemma TokenDecides(raw: string)
    ensures VerdictToken(raw) in YesTokens ==> ParseVerdict(raw)
    ensures VerdictToken(raw) in NoTokens ==> !ParseVerdict(raw)
    ensures VerdictToken(raw) !in YesTokens && VerdictToken(raw) !in NoTokens ==>
              (ParseVerdict(raw) <==> !HasMarker(Cleaned(raw)))
  {
    TokensDisjoint(VerdictToken(raw));
  }

  /** No word is both a yes and a no token. */
  lemma TokensDisjoint(t: string)
    ensures t in NoTokens ==> t !in YesTokens
  {
    if t in NoTokens {
      assert t[0] == 'n';
      assert "sim"[0] != 'n' && "yes"[0] != 'n';
    }
  }

  /** Case and surrounding white space do not change the verdict. */
  lemma VerdictOfCleaned(raw: string)
    ensures Cleaned(Cleaned(raw)) == Cleaned(raw)
    ensures ParseVerdict(Cleaned(raw)) == ParseVerdict(raw)
  {
    StripLowerStripped(raw);
    LowerIdempotent(Strip(raw));
  }

  /** The empty reply is read as coherent. */
  lemma EmptyIsCoherent()
    ensures ParseVerdict("")
  {
    assert Cleaned("") == [];
    assert VerdictToken("") == [];
    assert !HasMarker([]);
  }

  /** "Sim, não": the leading "Sim," wins over the later "não". */
  lemma YesBeforeNegativeWord()
    ensures HasMarker(Cleaned("Sim, não"))
    ensures ParseVerdict("Sim, não")
  {
    CleanedExample();
    MarkerExample();
    TokenExample();
  }

  lemma MarkerExample()
    ensures HasMarker("sim, não")
  {
    var c := "sim, não";
    assert Markers[0] == "não";
    assert c[5..8] == "não";
    ContainsAt(c, Markers[0], 5);
  }

  lemma TokenExample()
    ensures VerdictToken("Sim, não") == "sim"
  {
    CleanedExample();
    FirstTokenExample();
    PunctuationExample();
    StripLeftNoop("sim", Whitespace);
    StripRightNoop("sim", Whitespace);
  }

  lemma PunctuationExample()
    ensures StripRight("sim,", Punctuation) == "sim"
  {
    assert "sim,"[..3] == "sim";
    StripRightNoop("sim", Punctuation);
  }

  lemma FirstTokenExample()
    ensures FirstToken("sim, não") == "sim,"
  {
    var c := "sim, não";
    assert IsSpace(c[4]);
    FirstTokenAt(c, 4);
    assert c[..4] == "sim,";
  }

  lemma CleanedExample()
    ensures Cleaned("Sim, não") == "sim, não"
  {
    var raw := "Sim, não";
    StripLeftNoop(raw, Whitespace);
    StripRightNoop(raw, Whitespace);
    assert Strip(raw) == raw;
    var l := Lower(raw);
    forall i | 0 <= i < |raw| ensures l[i] == "sim, não"[i] {
      if i == 0 { assert LowerChar('S') == 's'; }
    }
  }
}
