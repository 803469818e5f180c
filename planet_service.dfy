/** The exoplanet catalogue service: the URL-safe id a planet name becomes,
    the look-up by id, and the name search with its page of results.  The
    catalogue is the list as loaded; reading it from disk and its cache are
    not modelled, nor are the physical quantities of a planet. */
module PlanetService {
  import opened Records
  import opened Text

  datatype Planet = Planet(id: string, name: string, imageUrl: string, colorHex: string)

  // ---------------------------------------------------------------------------
  // Slugs
  // ---------------------------------------------------------------------------

  /** The characters `[a-z0-9]` keeps. */
  predicate SlugChar(c: char)
  {
    'a' <= c <= 'z' || '0' <= c <= '9'
  }

  const Dash: set<char> := {'-'}

  /** `re.sub(r"[^a-z0-9]+", "-", s)`: every maximal run of other characters
      becomes one dash. */
  function Collapse(s: string): (r: string)
    ensures |r| <= |s|
  {
    if s == [] then []
    else
      var init := s[..|s| - 1];
      var c := s[|s| - 1];
      if SlugChar(c) then Collapse(init) + [c]
      else if init != [] && !SlugChar(init[|init| - 1]) then Collapse(init)
      else Collapse(init) + ['-']
  }

  /** `_slugify`. */
  function Slugify(name: string): string
  {
    StripChars(Collapse(Strip(Lower(name))), Dash)
  }

  predicate NoDoubleDash(r: string)
  {
    forall i :: 0 <= i < |r| - 1 ==> !(r[i] == '-' && r[i + 1] == '-')
  }

  predicate SlugAlphabet(r: string)
  {
    forall i :: 0 <= i < |r| ==> SlugChar(r[i]) || r[i] == '-'
  }

  /** A URL-safe id: lower-case letters, digits and single dashes, neither
      first nor last. */
  predicate WellFormedSlug(r: string)
  {
    && SlugAlphabet(r)
    && NoDoubleDash(r)
    && (r != [] ==> r[0] != '-' && r[|r| - 1] != '-')
  }

  lemma {:induction false} CollapseShape(s: string)
    ensures SlugAlphabet(Collapse(s)) && NoDoubleDash(Collapse(s))
    ensures s != [] ==> Collapse(s) != [] && (Collapse(s)[|Collapse(s)| - 1] == '-' <==> !SlugChar(s[|s| - 1]))
  {
    if s != [] {
      var init := s[..|s| - 1];
      CollapseShape(init);
      var r := Collapse(init);
      if init != [] {
        assert init[|init| - 1] == s[|s| - 2];
      }
    }
  }

  /** A contiguous piece of a string of slug characters and single dashes is
      one too. */
  lemma PieceShape(c: string, a: nat, r: string)
    requires SlugAlphabet(c) && NoDoubleDash(c)
    requires a + |r| <= |c| && r == c[a..a + |r|]
    ensures SlugAlphabet(r) && NoDoubleDash(r)
  {
    forall i | 0 <= i < |r| ensures SlugChar(r[i]) || r[i] == '-' {
      assert r[i] == c[a + i];
    }
    forall i | 0 <= i < |r| - 1 ensures !(r[i] == '-' && r[i + 1] == '-') {
      assert r[i] == c[a + i] && r[i + 1] == c[a + i + 1];
    }
  }

  /** Whatever the name, its slug is well formed. */
  lemma SlugWellFormed(name: string)
    ensures WellFormedSlug(Slugify(name))
  {
    CollapsedSlug(Strip(Lower(name)));
  }

  lemma CollapsedSlug(s: string)
    ensures WellFormedSlug(StripChars(Collapse(s), Dash))
  {
    CollapseShape(s);
    StrippedShape(Collapse(s));
  }

  lemma StrippedShape(c: string)
    requires SlugAlphabet(c) && NoDoubleDash(c)
    ensures WellFormedSlug(StripChars(c, Dash))
  {
    var r := StripChars(c, Dash);
    var a := StripCharsInside(c, Dash);
    PieceShape(c, a, r);
    assert r != [] ==> r[0] !in Dash && r[|r| - 1] !in Dash;
  }

  /** On a string of slug characters and single dashes the run rewriting
      changes nothing. */
  lemma {:induction false} CollapseFixed(s: string)
    requires SlugAlphabet(s) && NoDoubleDash(s)
    ensures Collapse(s) == s
  {
    if s != [] {
      var init := s[..|s| - 1];
      CollapseFixed(init);
      assert s == init + [s[|s| - 1]];
      if init != [] {
        assert init[|init| - 1] == s[|s| - 2];
      }
    }
  }

  /** A well-formed slug is its own slug. */
  lemma WellFormedFixed(r: string)
    requires WellFormedSlug(r)
    ensures Slugify(r) == r
  {
    LowerFixed(r);
    StripLeftNoop(r, Whitespace);
    StripRightNoop(r, Whitespace);
    assert Strip(r) == r;
    CollapseFixed(r);
    StripLeftNoop(r, Dash);
    StripRightNoop(r, Dash);
  }

  lemma LowerFixed(r: string)
    requires SlugAlphabet(r)
    ensures Lower(r) == r
  {
    forall i | 0 <= i < |r| ensures Lower(r)[i] == r[i] {
      assert SlugChar(r[i]) || r[i] == '-';
    }
  }

  /** `_slugify(_slugify(x)) == _slugify(x)`. */
  lemma SlugifyIdempotent(name: string)
    ensures Slugify(Slugify(name)) == Slugify(name)
  {
    SlugWellFormed(name);
    WellFormedFixed(Slugify(name));
  }

  // ---------------------------------------------------------------------------
  // Search and look-up
  // ---------------------------------------------------------------------------

  /** The name test, for a query already lower-cased. */
  predicate NameMatches(p: Planet, q: string)
  {
    Contains(Lower(p.name), q)
  }

  function Filtered(planets: seq<Planet>, q: string): (r: seq<Planet>)
    ensures |r| <= |planets|
  {
    if planets == [] then []
    else Filtered(planets[..|planets| - 1], q) + (if NameMatches(planets[|planets| - 1], q) then [planets[|planets| - 1]] else [])
  }

  /** The planets `search_planets` counts: all for an empty query. */
  function Matching(planets: seq<Planet>, query: string): seq<Planet>
  {
    if query == [] then planets else Filtered(planets, Lower(query))
  }

  /** Python's `s[a:b]`, negative bounds counting from the end. */
  function PySlice<T>(s: seq<T>, a: int, b: int): (r: seq<T>)
    ensures |r| <= |s|
  {
    var lo := if a < 0 then (if |s| + a < 0 then 0 else |s| + a) else (if a > |s| then |s| else a);
    var hi := if b < 0 then (if |s| + b < 0 then 0 else |s| + b) else (if b > |s| then |s| else b);
    if lo >= hi then [] else s[lo..hi]
  }

  /** `search_planets`: the page and the number of matches. */
  function SearchPlanets(planets: seq<Planet>, query: string, page: int, perPage: int): (seq<Planet>, nat)
  {
    var m := Matching(planets, query);
    var start := (page - 1) * perPage;
    (PySlice(m, start, start + perPage), |m|)
  }

  /** The matches keep the planets' order: filtering splits over a
      concatenation. */
  lemma {:induction false} FilteredConcat(a: seq<Planet>, b: seq<Planet>, q: string)
    ensures Filtered(a + b, q) == Filtered(a, q) + Filtered(b, q)
  {
    if b != [] {
      var init := b[..|b| - 1];
      var last := b[|b| - 1];
      FilteredConcat(a, init, q);
      assert (a + b)[..|a + b| - 1] == a + init;
      assert (a + b)[|a + b| - 1] == last;
      var bit := if NameMatches(last, q) then [last] else [];
      assert Filtered(a + b, q) == Filtered(a + init, q) + bit;
      assert Filtered(b, q) == Filtered(init, q) + bit;
    } else {
      assert a + b == a;
    }
  }

  lemma {:induction false} FilteredExact(planets: seq<Planet>, q: string, p: Planet)
    ensures p in Filtered(planets, q) <==> p in planets && NameMatches(p, q)
  {
    if planets != [] {
      FilteredExact(planets[..|planets| - 1], q, p);
      assert planets == planets[..|planets| - 1] + [planets[|planets| - 1]];
    }
  }

  /** An empty query matches every planet; otherwise exactly those whose
      lower-cased name contains the lower-cased query. */
  lemma MatchingExact(planets: seq<Planet>, query: string, p: Planet)
    ensures query == [] ==> Matching(planets, query) == planets
    ensures query != [] ==> (p in Matching(planets, query) <==> p in planets && Contains(Lower(p.name), Lower(query)))
  {
    FilteredExact(planets, Lower(query), p);
  }

  /** For a page from 1 on, the page is the slice of the matches from
      `(page - 1) * per_page`, at most `per_page` long, and the total is the
      number of matches. */
  lemma SearchPage(planets: seq<Planet>, query: string, page: int, perPage: int)
    requires page >= 1 && perPage >= 0
    ensures var (r, total) := SearchPlanets(planets, query, page, perPage);
      var m := Matching(planets, query);
      var start := (page - 1) * perPage;
      && total == |m|
      && |r| <= perPage
      && r == m[Min(start, |m|)..Min(start + perPage, |m|)]
  {
    var start := (page - 1) * perPage;
    assert start >= 0 by { MulNonNegative(page - 1, perPage); }
  }

  /** With a negative `per_page` the slice bounds count from the end: the
      first page is the matches without their last `-per_page`, and every
      later page is empty, its end lying before its start. */
  lemma SearchPageNegative(planets: seq<Planet>, query: string, page: int, perPage: int)
    requires page >= 1 && perPage < 0
    ensures var (r, total) := SearchPlanets(planets, query, page, perPage);
      var m := Matching(planets, query);
      && total == |m|
      && (page == 1 ==> r == m[..if |m| + perPage < 0 then 0 else |m| + perPage])
      && (page >= 2 ==> r == [])
  {
    if page >= 2 {
      var start := (page - 1) * perPage;
      assert start == perPage + (page - 2) * perPage;
      assert (page - 2) * -perPage >= 0 by { MulNonNegative(page - 2, -perPage); }
      assert start < 0 && start + perPage < start;
    }
  }

  /** Two consecutive pages are two adjacent pieces of the matches. */
  lemma PagesAdjacent(planets: seq<Planet>, query: string, page: int, perPage: int)
    requires page >= 1 && perPage >= 0
    ensures var m := Matching(planets, query);
      var start := (page - 1) * perPage;
      SearchPlanets(planets, query, page, perPage).0 + SearchPlanets(planets, query, page + 1, perPage).0
        == m[Min(start, |m|)..Min(start + 2 * perPage, |m|)]
  {
    var m := Matching(planets, query);
    var start := (page - 1) * perPage;
    assert start >= 0 by { MulNonNegative(page - 1, perPage); }
    NextStart(page, perPage);
    assert SearchPlanets(planets, query, page, perPage).0 == PySlice(m, start, start + perPage);
    assert SearchPlanets(planets, query, page + 1, perPage).0 == PySlice(m, start + perPage, start + perPage + perPage);
    PySliceFrom(m, start, perPage);
    PySliceFrom(m, start + perPage, perPage);
    SlicesAdjacent(m, start, perPage);
  }

  /** A slice from a non-negative start, clamped to the end. */
  lemma PySliceFrom<T>(m: seq<T>, start: int, n: int)
    requires start >= 0 && n >= 0
    ensures PySlice(m, start, start + n) == m[Min(start, |m|)..Min(start + n, |m|)]
  {
  }

  lemma NextStart(page: int, perPage: int)
    ensures (page + 1 - 1) * perPage == (page - 1) * perPage + perPage
  {
    assert (page + 1 - 1) * perPage == page * perPage;
    assert (page - 1) * perPage == page * perPage - perPage;
  }

  lemma SlicesAdjacent<T>(m: seq<T>, start: int, n: int)
    requires start >= 0 && n >= 0
    ensures m[Min(start, |m|)..Min(start + n, |m|)] + m[Min(start + n, |m|)..Min(start + 2 * n, |m|)]
            == m[Min(start, |m|)..Min(start + 2 * n, |m|)]
  {
  }

  function Min(a: int, b: int): int { if a < b then a else b }

  lemma MulNonNegative(a: int, b: int)
    requires a >= 0 && b >= 0
    ensures a * b >= 0
  {
  }

  /** `get_planet_by_id`: the first planet with the id. */
  function PlanetById(planets: seq<Planet>, id: string): (r: Option<Planet>)
    ensures r.Some? ==> r.value in planets && r.value.id == id
    ensures r.None? <==> forall i :: 0 <= i < |planets| ==> planets[i].id != id
  {
    if planets == [] then None
    else if planets[0].id == id then Some(planets[0])
    else PlanetById(planets[1..], id)
  }

  /** The planet found is the first one with the id. */
  lemma {:induction false} PlanetByIdFirst(planets: seq<Planet>, id: string, i: nat)
    requires i < |planets| && planets[i].id == id
    requires forall j :: 0 <= j < i ==> planets[j].id != id
    ensures PlanetById(planets, id) == Some(planets[i])
  {
    if i > 0 {
      PlanetByIdFirst(planets[1..], id, i - 1);
    }
  }

  /** A loaded catalogue: every id is its planet's slug. */
  predicate Loaded(planets: seq<Planet>)
  {
    forall i :: 0 <= i < |planets| ==> planets[i].id == Slugify(planets[i].name)
  }

  /** In a loaded catalogue every planet can be looked up by its name's slug,
      and what is found carries a name with the same slug. */
  lemma LookupBySlug(planets: seq<Planet>, k: nat)
    requires Loaded(planets) && k < |planets|
    ensures var r := PlanetById(planets, Slugify(planets[k].name));
      && r.Some? && Slugify(r.value.name) == Slugify(planets[k].name)
  {
    var r := PlanetById(planets, Slugify(planets[k].name));
    var j :| 0 <= j < |planets| && planets[j] == r.value;
  }
}
