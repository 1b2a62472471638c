/**
 Geo normalisation (job_ftch/application/geo.py): one chunk of a location text becomes a place name or
 nothing, and the chunks of several sources become a city, a country and a display list. The set of noise
 words is walked in an arbitrary order, as Python walks a frozenset.
 */
module Geo {
  import opened Wrappers
  import opened Ordering

  /** What Python's strings and the splitting pattern do. */
  datatype Text = Text(
    lower: string -> string,
    fold: string -> string,
    alpha: char -> bool,
    space: char -> bool,
    sameLetter: (char, char) -> bool,      // equality of characters under re.IGNORECASE
    split: string -> seq<string>)          // `_GEO_SPLIT.split`

  datatype Tables = Tables(
    noise: set<string>,
    countries: map<string, string>,
    cities: map<string, string>,
    regions: map<string, string>,
    cityCountries: map<string, string>)

  const SETTLEMENT_PREFIXES: seq<string> := ["г", "гор", "пос", "пгт", "с", "д", "ст"]

  // ----- text -------------------------------------------------------------------------------------

  /** `s.strip(set)` for a set of characters. */
  function Trim(s: string, drop: char -> bool): (r: string)
    ensures |r| <= |s|
    decreases |s|
  {
    if s == "" then ""
    else if drop(s[0]) then Trim(s[1..], drop)
    else if drop(s[|s| - 1]) then Trim(s[..|s| - 1], drop)
    else s
  }

  function Spaces(text: Text, s: string): (n: nat)
    ensures n <= |s|
  {
    if s == "" || !text.space(s[0]) then 0 else 1 + Spaces(text, s[1..])
  }

  /** The text after the first ')', if there is one. */
  function AfterClosing(s: string): (r: Option<string>)
    ensures r.Some? ==> |r.value| < |s|
  {
    if s == "" then None else if s[0] == ')' then Some(s[1..]) else AfterClosing(s[1..])
  }

  /** Removes parenthesised notes with the spaces before them. */
  function DropNotes(text: Text, s: string): (r: string)
    ensures |r| <= |s|
    decreases |s|
  {
    if s == "" then ""
    else
      var n := Spaces(text, s);
      var after := if n < |s| && s[n] == '(' then AfterClosing(s[n + 1..]) else None;
      if after.Some? then DropNotes(text, after.value) else [s[0]] + DropNotes(text, s[1..])
  }

  predicate StartsLike(text: Text, s: string, p: string) {
    |p| <= |s| && forall i :: 0 <= i < |p| ==> text.sameLetter(s[i], p[i])
  }

  /** The length of a settlement prefix with its dot and spaces, 0 if there is none. */
  function PrefixLength(text: Text, s: string, prefixes: seq<string>): (n: nat)
    ensures n <= |s|
  {
    if prefixes == [] then 0
    else
      var p := prefixes[0];
      if !StartsLike(text, s, p) then PrefixLength(text, s, prefixes[1..])
      else
        var dot := if |p| < |s| && s[|p|] == '.' then |p| + 1 else |p|;
        var spaces := Spaces(text, s[dot..]);
        if spaces > 0 then dot + spaces else PrefixLength(text, s, prefixes[1..])
  }

  /** The two cleaning steps of a chunk. */
  function Bare(text: Text, chunk: string): (r: string)
    ensures |r| <= |chunk|
  {
    Trim(DropNotes(text, chunk), c => c in " .,")
  }

  function Cleaned(text: Text, chunk: string): (r: string)
    ensures |r| <= |chunk|
  {
    var bare := Bare(text, chunk);
    Trim(bare[PrefixLength(text, bare, SETTLEMENT_PREFIXES)..], text.space)
  }

  predicate Leads(text: Text, s: string, w: string) { w + " " <= text.lower(s) }

  predicate Trails(text: Text, s: string, w: string) { EndsWith(text.lower(s), " " + w) }

  predicate EndsWith(s: string, t: string) { |t| <= |s| && s[|s| - |t|..] == t }

  function Known(t: Tables, lowered: string): Option<string> {
    if lowered in t.countries then Some(t.countries[lowered])
    else if lowered in t.cities then Some(t.cities[lowered])
    else if lowered in t.regions then Some(t.regions[lowered])
    else None
  }

  // ----- one chunk --------------------------------------------------------------------------------

  predicate Hopeless(text: Text, t: Tables, chunk: string) {
    var cleaned := Cleaned(text, chunk);
    || Bare(text, chunk) == "" || (forall i :: 0 <= i < |cleaned| ==> !text.alpha(cleaned[i]))
    || text.lower(cleaned) in t.noise
  }

  predicate Noisy(text: Text, s: string, w: string) { Leads(text, s, w) || Trails(text, s, w) }

  /** What is left when the noise word at one end is cut off; slices clamp as in Python. */
  function Cut(text: Text, s: string, w: string): (r: string)
    ensures s != "" && w != "" ==> |r| < |s|
  {
    var n := if |w| < |s| then |w| else |s|;
    if Leads(text, s, w) then s[n..] else s[..|s| - n]
  }

  /** `r` is a possible result for the chunk, for some order of the noise words. */
  ghost predicate MayReturn(text: Text, t: Tables, chunk: string, r: Option<string>)
    decreases |chunk|
  {
    var cleaned := Cleaned(text, chunk);
    if Hopeless(text, t, chunk) then r == None
    else if Known(t, text.lower(cleaned)).Some? then r == Known(t, text.lower(cleaned))
    else if forall w :: w in t.noise ==> !Noisy(text, cleaned, w) then r == Some(cleaned)
    else exists w :: w in t.noise && w != "" && Noisy(text, cleaned, w) && MayReturn(text, t, Cut(text, cleaned, w), r)
  }

  /** The facts about the tables that the code relies on. */
  ghost predicate Lawful(text: Text, t: Tables) {
    && "" !in t.noise
    && (forall k :: k in t.countries ==> Clean(text, t, t.countries[k]))
    && (forall k :: k in t.cities ==> Clean(text, t, t.cities[k]))
    && (forall k :: k in t.regions ==> Clean(text, t, t.regions[k]))
    && (forall c :: c in t.cityCountries ==> t.cityCountries[c] in t.countries.Values)
    && (forall c :: c in t.cityCountries ==> c !in t.countries.Values && c !in t.regions.Values)
  }

  /** A place name without noise. */
  ghost predicate Clean(text: Text, t: Tables, s: string) {
    s != "" && text.lower(s) !in t.noise && forall w :: w in t.noise ==> !Noisy(text, s, w)
  }

  /** `normalize_geo_chunk`. */
  method NormalizeChunk(text: Text, t: Tables, chunk: string) returns (r: Option<string>)
    requires Lawful(text, t)
    ensures MayReturn(text, t, chunk, r)
    decreases |chunk|
  {
    if Bare(text, chunk) == "" {
      return None;
    }
    var cleaned := Cleaned(text, chunk);
    if forall i :: 0 <= i < |cleaned| ==> !text.alpha(cleaned[i]) {
      return None;
    }
    var lowered := text.lower(cleaned);
    if lowered in t.noise {
      return None;
    }
    if Known(t, lowered).Some? {
      return Known(t, lowered);
    }
    var rest := t.noise;
    while rest != {}
      invariant rest <= t.noise
      invariant forall w :: w in t.noise && w !in rest ==> !Noisy(text, cleaned, w)
      decreases |rest|
    {
      var noise :| noise in rest;
      if noise + " " <= lowered || EndsWith(lowered, " " + noise) {
        assert Noisy(text, cleaned, noise);
        r := NormalizeChunk(text, t, Cut(text, cleaned, noise));
        return;
      }
      rest := rest - {noise};
    }
    r := Some(cleaned);
  }

  /** Whatever the order, a result is no noise word and neither starts nor ends with one. */
  lemma {:induction false} ResultsAreClean(text: Text, t: Tables, chunk: string, r: Option<string>)
    requires Lawful(text, t) && MayReturn(text, t, chunk, r)
    ensures r.Some? ==> Clean(text, t, r.value)
    decreases |chunk|
  {
    var cleaned := Cleaned(text, chunk);
    if Hopeless(text, t, chunk) || Known(t, text.lower(cleaned)).Some? {
    } else if forall w :: w in t.noise ==> !Noisy(text, cleaned, w) {
      assert cleaned != "";
    } else {
      var w :| w in t.noise && w != "" && Noisy(text, cleaned, w) && MayReturn(text, t, Cut(text, cleaned, w), r);
      ResultsAreClean(text, t, Cut(text, cleaned, w), r);
    }
  }

  // ----- several sources --------------------------------------------------------------------------

  /** `display` is printed with commas, a correction as "country:city_conflict:old->new". */
  datatype Place = Place(
    display: Option<seq<string>>,
    city: Option<string>,
    country: Option<string>,
    corrections: seq<(string, string)>)

  ghost predicate FoldDistinct(text: Text, seen: seq<string>) {
    forall i, j :: 0 <= i < j < |seen| ==> text.fold(seen[i]) != text.fold(seen[j])
  }

  /** All non-empty chunks of the sources. */
  function Chunks(text: Text, sources: seq<Option<string>>): seq<string> {
    if sources == [] then []
    else
      var before, last := Chunks(text, sources[..|sources| - 1]), sources[|sources| - 1];
      if last.None? || last.value == "" then before else before + text.split(last.value)
  }

  ghost predicate Spelled(text: Text, seen: seq<string>, name: string) {
    exists s :: s in seen && text.fold(s) == text.fold(name)
  }

  /** A result is added to the names unless it is none or a spelling of one of them. */
  ghost function WithResult(text: Text, seen: seq<string>, r: Option<string>): seq<string> {
    if r.Some? && !Spelled(text, seen, r.value) then seen + [r.value] else seen
  }

  /** The names among the results, each in its first spelling and in the order of the results. */
  ghost function Spellings(text: Text, results: seq<Option<string>>): seq<string> {
    if results == [] then []
    else WithResult(text, Spellings(text, results[..|results| - 1]), results[|results| - 1])
  }

  /** A possible result for each chunk. */
  ghost predicate ResultsOf(text: Text, t: Tables, chunks: seq<string>, results: seq<Option<string>>) {
    && |results| == |chunks|
    && (chunks == [] ||
        var n := |chunks| - 1;
        MayReturn(text, t, chunks[n], results[n]) && ResultsOf(text, t, chunks[..n], results[..n]))
  }

  lemma {:induction false} NthResult(text: Text, t: Tables, chunks: seq<string>, results: seq<Option<string>>, i: nat)
    requires ResultsOf(text, t, chunks, results) && i < |chunks|
    ensures MayReturn(text, t, chunks[i], results[i])
  {
    if i < |chunks| - 1 {
      NthResult(text, t, chunks[..|chunks| - 1], results[..|chunks| - 1], i);
    }
  }

  /** `seen` lists the names that some possible results of the chunks spell, in their order. */
  ghost predicate Collected(text: Text, t: Tables, chunks: seq<string>, seen: seq<string>) {
    exists results :: ResultsOf(text, t, chunks, results) && seen == Spellings(text, results)
  }

  /** The result at `k` is a name that no earlier result spells. */
  ghost predicate FirstSpelling(text: Text, results: seq<Option<string>>, k: nat) {
    && k < |results| && results[k].Some?
    && forall j :: 0 <= j < k && results[j].Some? ==> text.fold(results[j].value) != text.fold(results[k].value)
  }

  lemma {:induction false} SpelledIsEarlier(text: Text, results: seq<Option<string>>, name: string)
    ensures Spelled(text, Spellings(text, results), name) <==>
              exists j :: 0 <= j < |results| && results[j].Some? && text.fold(results[j].value) == text.fold(name)
  {
    if results != [] {
      var n := |results| - 1;
      var before, last := results[..n], results[n];
      var seen, seen' := Spellings(text, before), Spellings(text, results);
      SpelledIsEarlier(text, before, name);
      if Spelled(text, seen, name) {
        var s :| s in seen && text.fold(s) == text.fold(name);
        assert s in seen';
        var j :| 0 <= j < n && before[j].Some? && text.fold(before[j].value) == text.fold(name);
        assert results[j] == before[j];
      } else if last.Some? && text.fold(last.value) == text.fold(name) {
        assert last.value in seen';
      }
    }
  }

  /** The names of the results before the first spelling of a name, and then that spelling, begin the list. */
  lemma {:induction false} FirstSpellingsInOrder(text: Text, results: seq<Option<string>>, k: nat)
    requires FirstSpelling(text, results, k)
    ensures Spellings(text, results[..k]) + [results[k].value] <= Spellings(text, results)
  {
    var n := |results| - 1;
    if k < n {
      assert results[..n][..k] == results[..k];
      FirstSpellingsInOrder(text, results[..n], k);
    } else {
      SpelledIsEarlier(text, results[..k], results[k].value);
    }
  }

  lemma {:induction false} NoNameTwice(text: Text, results: seq<Option<string>>)
    ensures FoldDistinct(text, Spellings(text, results))
  {
    if results != [] {
      NoNameTwice(text, results[..|results| - 1]);
    }
  }

  lemma FirstSpellingBefore(text: Text, results: seq<Option<string>>, n: nat, k: nat)
    requires k < n <= |results|
    ensures FirstSpelling(text, results[..n], k) <==> FirstSpelling(text, results, k)
  {
    assert forall j :: 0 <= j < n ==> results[..n][j] == results[j];
  }

  lemma LastIsFirstSpelling(text: Text, results: seq<Option<string>>)
    requires results != []
    ensures var n := |results| - 1;
            FirstSpelling(text, results, n) <==>
              results[n].Some? && !Spelled(text, Spellings(text, results[..n]), results[n].value)
  {
    var n := |results| - 1;
    var before := results[..n];
    assert forall j :: 0 <= j < n ==> before[j] == results[j];
    if results[n].Some? {
      SpelledIsEarlier(text, before, results[n].value);
    }
  }

  /** Nothing else is in the list: each name is the first spelling of itself. */
  lemma {:induction false} OnlyFirstSpellings(text: Text, results: seq<Option<string>>, s: string)
    requires s in Spellings(text, results)
    ensures exists k: nat :: FirstSpelling(text, results, k) && results[k].value == s
  {
    var n := |results| - 1;
    if s in Spellings(text, results[..n]) {
      OnlyFirstSpellings(text, results[..n], s);
      var k: nat :| FirstSpelling(text, results[..n], k) && results[..n][k].value == s;
      FirstSpellingBefore(text, results, n, k);
    } else {
      LastIsFirstSpelling(text, results);
      assert FirstSpelling(text, results, n);
    }
  }

  lemma NextResult(text: Text, t: Tables, chunks: seq<string>, results: seq<Option<string>>, chunk: string,
                   r: Option<string>)
    requires ResultsOf(text, t, chunks, results) && MayReturn(text, t, chunk, r)
    ensures ResultsOf(text, t, chunks + [chunk], results + [r])
    ensures Spellings(text, results + [r]) == WithResult(text, Spellings(text, results), r)
  {
    assert (results + [r])[..|results|] == results && (chunks + [chunk])[..|chunks|] == chunks;
  }

  /** One more chunk with its result. */
  lemma CollectNext(text: Text, t: Tables, chunks: seq<string>, seen: seq<string>, chunk: string, r: Option<string>)
    requires Collected(text, t, chunks, seen) && MayReturn(text, t, chunk, r)
    ensures Collected(text, t, chunks + [chunk], WithResult(text, seen, r))
  {
    var results: seq<Option<string>> :| ResultsOf(text, t, chunks, results) && seen == Spellings(text, results);
    NextResult(text, t, chunks, results, chunk, r);
  }

  lemma NewSpelling(text: Text, seen: seq<string>, name: string)
    ensures text.fold(name) in (set s | s in seen :: text.fold(s)) <==> Spelled(text, seen, name)
  {
  }

  /** One chunk. */
  method CollectChunk(text: Text, t: Tables, chunk: string, ghost before: seq<string>, found: seq<string>)
    returns (seen: seq<string>)
    requires Lawful(text, t) && Collected(text, t, before, found)
    ensures Collected(text, t, before + [chunk], seen)
  {
    var normalized := NormalizeChunk(text, t, chunk);
    CollectNext(text, t, before, found, chunk, normalized);
    seen := found;
    if normalized.Some? {
      NewSpelling(text, seen, normalized.value);
      if text.fold(normalized.value) !in (set s | s in seen :: text.fold(s)) {
        seen := seen + [normalized.value];
      }
    }
  }

  lemma OneMore<T>(before: seq<T>, xs: seq<T>, i: nat)
    requires i < |xs|
    ensures before + xs[..i + 1] == (before + xs[..i]) + [xs[i]]
  {
  }

  /** The chunks of one source. */
  method CollectChunks(text: Text, t: Tables, chunks: seq<string>, ghost before: seq<string>, found: seq<string>)
    returns (seen: seq<string>)
    requires Lawful(text, t) && Collected(text, t, before, found)
    ensures Collected(text, t, before + chunks, seen)
  {
    seen := found;
    var i := 0;
    assert before + chunks[..0] == before;
    while i < |chunks|
      invariant 0 <= i <= |chunks|
      invariant Collected(text, t, before + chunks[..i], seen)
    {
      seen := CollectChunk(text, t, chunks[i], before + chunks[..i], seen);
      OneMore(before, chunks, i);
      i := i + 1;
    }
    assert chunks[..|chunks|] == chunks;
  }

  lemma ChunksStep(text: Text, sources: seq<Option<string>>, i: nat)
    requires i < |sources|
    ensures var before, source := Chunks(text, sources[..i]), sources[i];
            Chunks(text, sources[..i + 1])
            == if source.None? || source.value == "" then before else before + text.split(source.value)
  {
    assert sources[..i + 1][..i] == sources[..i];
  }

  method Collect(text: Text, t: Tables, sources: seq<Option<string>>) returns (seen: seq<string>)
    requires Lawful(text, t)
    ensures Collected(text, t, Chunks(text, sources), seen)
  {
    seen := [];
    var i := 0;
    assert ResultsOf(text, t, [], []) && Spellings(text, []) == [];
    while i < |sources|
      invariant 0 <= i <= |sources|
      invariant Collected(text, t, Chunks(text, sources[..i]), seen)
    {
      var source := sources[i];
      ChunksStep(text, sources, i);
      if source.Some? && source.value != "" {
        seen := CollectChunks(text, t, text.split(source.value), Chunks(text, sources[..i]), seen);
      }
      i := i + 1;
    }
    assert sources[..|sources|] == sources;
  }

  // ----- city and country -------------------------------------------------------------------------

  predicate IsCountry(t: Tables, s: string) { s in t.countries.Values }

  predicate IsCity(t: Tables, s: string) { s in t.cityCountries }

  function Index(xs: seq<string>, x: string): (i: nat)
    requires x in xs
    ensures i < |xs| && xs[i] == x && x !in xs[..i]
  {
    if xs[0] == x then 0
    else
      assert xs == [xs[0]] + xs[1..];
      var i := 1 + Index(xs[1..], x);
      assert xs[..i] == [xs[0]] + xs[1..][..i - 1];
      i
  }

  /** `next((x for x in xs if p(x)), None)`. */
  function First(xs: seq<string>, p: string -> bool): Option<string> {
    if xs == [] then None else if p(xs[0]) then Some(xs[0]) else First(xs[1..], p)
  }

  /** The one known city and the one country, when there is exactly one of each. */
  predicate OneOfEach(t: Tables, seen: seq<string>) {
    |Filtered(seen, s => IsCity(t, s))| == 1 && |Filtered(seen, s => IsCountry(t, s))| == 1
  }

  function Cities(t: Tables, seen: seq<string>): seq<string> { Filtered(seen, s => IsCity(t, s)) }

  function Countries(t: Tables, seen: seq<string>): seq<string> { Filtered(seen, s => IsCountry(t, s)) }

  lemma {:induction false} FirstIsFiltered(xs: seq<string>, p: string -> bool)
    ensures First(xs, p) == (var ys := Filtered(xs, p); if ys == [] then None else Some(ys[0]))
  {
    if xs != [] {
      FirstIsFiltered(xs[1..], p);
    }
  }

  /** The country of the one known city. */
  function ExpectedCountry(t: Tables, seen: seq<string>): string
    requires OneOfEach(t, seen)
  {
    FilteredFrom(seen, s => IsCity(t, s));
    assert Cities(t, seen)[0] in Cities(t, seen);
    t.cityCountries[Cities(t, seen)[0]]
  }

  /** The list after the country of the one known city has replaced the one country. */
  function Corrected(t: Tables, seen: seq<string>): seq<string>
    requires OneOfEach(t, seen)
  {
    FilteredFrom(seen, s => IsCountry(t, s));
    assert Countries(t, seen)[0] in Countries(t, seen);
    seen[Index(seen, Countries(t, seen)[0]) := ExpectedCountry(t, seen)]
  }

  /** The outcome with one known city and one country. */
  predicate CityDecides(t: Tables, collected: seq<string>, place: Place, seen: seq<string>)
    requires OneOfEach(t, collected)
  {
    var country, expected := Countries(t, collected)[0], ExpectedCountry(t, collected);
    && place.country == Some(expected) && seen == Corrected(t, collected)
    && place.corrections == if country == expected then [] else [(country, expected)]
  }

  /** The outcome otherwise. */
  predicate FirstCountry(t: Tables, collected: seq<string>, place: Place, seen: seq<string>) {
    seen == collected && place.corrections == [] && place.country == First(collected, s => IsCountry(t, s))
  }

  predicate CountryDecided(t: Tables, collected: seq<string>, place: Place, seen: seq<string>) {
    if OneOfEach(t, collected) then CityDecides(t, collected, place, seen) else FirstCountry(t, collected, place, seen)
  }

  /** The one known city, else the first plain name before the country. */
  predicate CityChosen(t: Tables, collected: seq<string>, place: Place, seen: seq<string>) {
    if |Cities(t, collected)| == 1 then place.city == Some(Cities(t, collected)[0])
    else if place.country.None? then place.city == None
    else place.country.value in seen
         && place.city == First(seen[..Index(seen, place.country.value)], s => s !in t.noise && s !in t.regions.Values)
  }

  /** The country step of `normalize_geo_sources`. */
  method DecideCountry(t: Tables, collected: seq<string>)
    returns (country: Option<string>, corrections: seq<(string, string)>, seen: seq<string>)
    ensures CountryDecided(t, collected, Place(None, None, country, corrections), seen)
    ensures country.Some? ==> country.value in seen
  {
    seen := collected;
    corrections := [];
    country := First(seen, s => IsCountry(t, s));
    var knownCities, countries := Cities(t, seen), Countries(t, seen);
    FirstIsFiltered(seen, s => IsCountry(t, s));
    FilteredFrom(seen, s => IsCountry(t, s));
    FilteredFrom(seen, s => IsCity(t, s));
    assert countries != [] ==> countries[0] in countries;
    assert knownCities != [] ==> knownCities[0] in knownCities;
    if |knownCities| == 1 && |countries| == 1 {
      var expected := t.cityCountries[knownCities[0]];
      if country != Some(expected) {
        corrections := [(countries[0], expected)];
        var index := Index(seen, countries[0]);
        seen := seen[index := expected];
        assert seen[index] == expected;
        country := Some(expected);
      }
    }
  }

  /** The rest of `normalize_geo_sources`, on the collected list. */
  method Decide(t: Tables, collected: seq<string>) returns (place: Place, seen: seq<string>)
    ensures CountryDecided(t, collected, place, seen)
    ensures CityChosen(t, collected, place, seen)
    ensures place.country.Some? ==> place.country.value in seen
    ensures place.display == if seen == [] then None else Some(seen[..if |seen| < 3 then |seen| else 3])
  {
    var country, corrections;
    country, corrections, seen := DecideCountry(t, collected);
    var knownCities := Cities(t, collected);
    var city := if |knownCities| == 1 then Some(knownCities[0]) else None;
    if country.Some? {
      var index := Index(seen, country.value);
      if city.None? {
        city := First(seen[..index], s => s !in t.noise && s !in t.regions.Values);
      }
    }
    var display := if seen == [] then None else Some(seen[..if |seen| < 3 then |seen| else 3]);
    place := Place(display, city, country, corrections);
  }

  lemma {:induction false} TwoMatches(xs: seq<string>, p: string -> bool, i: nat, j: nat)
    requires i < j < |xs| && p(xs[i]) && p(xs[j])
    ensures |Filtered(xs, p)| >= 2
  {
    var rest := xs[1..];
    assert rest[j - 1] == xs[j];
    if i > 0 {
      assert rest[i - 1] == xs[i];
      TwoMatches(rest, p, i - 1, j - 1);
    } else {
      FilteredFrom(rest, p);
      assert xs[j] in Filtered(rest, p);
    }
  }

  lemma CorrectionFacts(text: Text, t: Tables, seen: seq<string>) returns (at: nat)
    requires Lawful(text, t) && OneOfEach(t, seen)
    ensures at < |seen| && IsCountry(t, seen[at]) && Corrected(t, seen) == seen[at := ExpectedCountry(t, seen)]
    ensures IsCountry(t, ExpectedCountry(t, seen))
    ensures forall i :: 0 <= i < |seen| && i != at ==> !IsCountry(t, seen[i])
    ensures Cities(t, seen)[0] in seen && IsCity(t, Cities(t, seen)[0])
  {
    FilteredFrom(seen, s => IsCity(t, s));
    FilteredFrom(seen, s => IsCountry(t, s));
    assert Cities(t, seen)[0] in Cities(t, seen) && Countries(t, seen)[0] in Countries(t, seen);
    at := Index(seen, Countries(t, seen)[0]);
    forall i | 0 <= i < |seen| && i != at
      ensures !IsCountry(t, seen[i])
    {
      if IsCountry(t, seen[i]) {
        TwoMatches(seen, s => IsCountry(t, s), if i < at then i else at, if i < at then at else i);
      }
    }
  }

  /** Correcting the country leaves the list free of duplicates, with the city still in it and the corrected
      country as its only country. */
  lemma CorrectionIsClean(text: Text, t: Tables, seen: seq<string>)
    requires Lawful(text, t) && OneOfEach(t, seen) && Distinct(seen)
    ensures Distinct(Corrected(t, seen)) && |Corrected(t, seen)| == |seen|
    ensures Cities(t, seen)[0] in Corrected(t, seen) && ExpectedCountry(t, seen) in Corrected(t, seen)
    ensures forall s :: s in Corrected(t, seen) ==> s in seen || s == ExpectedCountry(t, seen)
    ensures forall s :: s in Corrected(t, seen) && IsCountry(t, s) ==> s == ExpectedCountry(t, seen)
  {
    var at := CorrectionFacts(text, t, seen);
    var city, seen' := Cities(t, seen)[0], Corrected(t, seen);
    var i :| 0 <= i < |seen| && seen[i] == city;
    assert i != at && seen'[i] == city && seen'[at] == ExpectedCountry(t, seen);
  }

  /** Spellings stay different in the corrected list exactly when no other name is a spelling of the new
      country. */
  lemma CorrectionKeepsSpellings(text: Text, t: Tables, seen: seq<string>)
    requires Lawful(text, t) && OneOfEach(t, seen) && FoldDistinct(text, seen)
    ensures FoldDistinct(text, Corrected(t, seen)) <==>
              forall s :: s in seen && !IsCountry(t, s) ==> text.fold(s) != text.fold(ExpectedCountry(t, seen))
  {
    var at := CorrectionFacts(text, t, seen);
    var seen' := Corrected(t, seen);
    if FoldDistinct(text, seen') {
      forall s | s in seen && !IsCountry(t, s)
        ensures text.fold(s) != text.fold(ExpectedCountry(t, seen))
      {
        var i :| 0 <= i < |seen| && seen[i] == s;
        assert seen'[i] == s && seen'[at] == ExpectedCountry(t, seen);
      }
    }
  }

  lemma {:induction false} FirstIsListed(text: Text, results: seq<Option<string>>, k: nat)
    requires FirstSpelling(text, results, k)
    ensures results[k].value in Spellings(text, results)
  {
    var start := Spellings(text, results[..k]) + [results[k].value];
    FirstSpellingsInOrder(text, results, k);
    assert Spellings(text, results)[|start| - 1] == start[|start| - 1];
  }

  /** The same told from the results of the chunks: no first spelling of a name that is not a country is a spelling
      of the new country. */
  lemma CorrectionKeepsResults(text: Text, t: Tables, results: seq<Option<string>>)
    requires Lawful(text, t) && OneOfEach(t, Spellings(text, results))
    ensures var seen := Spellings(text, results);
            FoldDistinct(text, Corrected(t, seen)) <==>
              forall k: nat :: FirstSpelling(text, results, k) && !IsCountry(t, results[k].value) ==>
                text.fold(results[k].value) != text.fold(ExpectedCountry(t, seen))
  {
    var seen := Spellings(text, results);
    NoNameTwice(text, results);
    CorrectionKeepsSpellings(text, t, seen);
    forall s | s in seen
      ensures exists k: nat :: FirstSpelling(text, results, k) && results[k].value == s
    {
      OnlyFirstSpellings(text, results, s);
    }
    forall k: nat | FirstSpelling(text, results, k)
      ensures results[k].value in seen
    {
      FirstIsListed(text, results, k);
    }
  }

  lemma SpellingsAreDistinct(text: Text, seen: seq<string>)
    requires FoldDistinct(text, seen)
    ensures Distinct(seen)
  {
    forall i, j | 0 <= i < j < |seen|
      ensures seen[i] != seen[j]
    {
      assert text.fold(seen[i]) != text.fold(seen[j]);
    }
  }

  lemma {:induction false} FirstFits(xs: seq<string>, p: string -> bool)
    ensures First(xs, p).Some? ==> First(xs, p).value in xs && p(First(xs, p).value)
  {
    if xs != [] {
      FirstFits(xs[1..], p);
    }
  }

  /** The names of a collected list are clean. */
  lemma CollectedIsClean(text: Text, t: Tables, chunks: seq<string>, seen: seq<string>)
    requires Lawful(text, t) && Collected(text, t, chunks, seen)
    ensures Distinct(seen) && forall s :: s in seen ==> Clean(text, t, s)
  {
    var results: seq<Option<string>> :| ResultsOf(text, t, chunks, results) && seen == Spellings(text, results);
    NoNameTwice(text, results);
    SpellingsAreDistinct(text, seen);
    forall s | s in seen
      ensures Clean(text, t, s)
    {
      OnlyFirstSpellings(text, results, s);
      var k: nat :| FirstSpelling(text, results, k) && results[k].value == s;
      NthResult(text, t, chunks, results, k);
      ResultsAreClean(text, t, chunks[k], results[k]);
    }
  }

  /** What `normalize_geo_sources` promises of its outcome. */
  ghost predicate GoodPlace(text: Text, t: Tables, place: Place, seen: seq<string>) {
    && Distinct(seen) && (forall s :: s in seen ==> Clean(text, t, s))
    && (place.country.Some? ==> place.country.value in seen && IsCountry(t, place.country.value))
    && (place.city.Some? ==> place.city.value in seen && place.city != place.country)
  }

  lemma OutcomeIsGood(text: Text, t: Tables, chunks: seq<string>, collected: seq<string>, place: Place,
                      seen: seq<string>)
    requires Lawful(text, t) && Collected(text, t, chunks, collected)
    requires CountryDecided(t, collected, place, seen)
    requires CityChosen(t, collected, place, seen)
    ensures GoodPlace(text, t, place, seen)
  {
    CollectedIsClean(text, t, chunks, collected);
    FilteredFrom(collected, s => IsCity(t, s));
    if OneOfEach(t, collected) {
      CorrectionIsClean(text, t, collected);
      var at := CorrectionFacts(text, t, collected);
    } else {
      FirstFits(collected, s => IsCountry(t, s));
      if |Cities(t, collected)| == 1 {
        assert Cities(t, collected)[0] in Cities(t, collected);
      } else if place.country.Some? {
        FirstFits(seen[..Index(seen, place.country.value)], s => s !in t.noise && s !in t.regions.Values);
      }
    }
  }

  /** `normalize_geo_sources`: the outcome is decided from the collected names; a country is in the list, the
      list has no duplicates and no noise. */
  method NormalizeSources(text: Text, t: Tables, sources: seq<Option<string>>)
    returns (place: Place, seen: seq<string>, collected: seq<string>)
    requires Lawful(text, t)
    ensures Collected(text, t, Chunks(text, sources), collected)
    ensures CountryDecided(t, collected, place, seen)
    ensures CityChosen(t, collected, place, seen)
    ensures GoodPlace(text, t, place, seen)
  {
    collected := Collect(text, t, sources);
    place, seen := Decide(t, collected);
    OutcomeIsGood(text, t, Chunks(text, sources), collected, place, seen);
  }

  // ----- a correction that collides ---------------------------------------------------------------

  /** One word, without brackets and without noise. */
  ghost predicate PlainWord(text: Text, t: Tables, s: string) {
    && s != "" && (forall c :: c in s ==> c !in " .,(" && !text.space(c)) && text.alpha(s[0])
    && text.lower(s) !in t.noise && ' ' !in text.lower(s)
  }

  lemma {:induction false} NoSpaces(text: Text, s: string)
    requires forall c :: c in s ==> !text.space(c)
    ensures Spaces(text, s) == 0
  {
  }

  lemma {:induction false} NoPrefix(text: Text, s: string, prefixes: seq<string>)
    requires forall c :: c in s ==> !text.space(c)
    ensures PrefixLength(text, s, prefixes) == 0
  {
    if prefixes != [] {
      NoPrefix(text, s, prefixes[1..]);
      var p := prefixes[0];
      if StartsLike(text, s, p) {
        var dot := if |p| < |s| && s[|p|] == '.' then |p| + 1 else |p|;
        assert forall c :: c in s[dot..] ==> c in s;
        NoSpaces(text, s[dot..]);
      }
    }
  }

  lemma {:induction false} NoNotes(text: Text, s: string)
    requires forall c :: c in s ==> c != '(' && !text.space(c)
    ensures DropNotes(text, s) == s
  {
    if s != "" {
      NoSpaces(text, s);
      assert s[0] in s && forall c :: c in s[1..] ==> c in s;
      NoNotes(text, s[1..]);
    }
  }

  lemma WordIsClean(text: Text, t: Tables, s: string)
    requires PlainWord(text, t, s)
    ensures Bare(text, s) == s == Cleaned(text, s)
  {
    NoNotes(text, s);
    NoPrefix(text, s, SETTLEMENT_PREFIXES);
    assert s[0] in s && s[|s| - 1] in s && s[0..] == s;
  }

  /** Noise at an end comes with a space. */
  lemma NoiseHasSpace(text: Text, s: string, w: string)
    ensures Noisy(text, s, w) ==> ' ' in text.lower(s)
  {
    var lowered := text.lower(s);
    if Leads(text, s, w) {
      assert (w + " ")[|w|] == lowered[|w|];
    }
    if Trails(text, s, w) {
      var at := |lowered| - |w| - 1;
      assert lowered[at..][0] == lowered[at];
    }
  }

  /** A chunk of one plain word is looked up, or taken as it is. */
  lemma WordResult(text: Text, t: Tables, s: string, r: Option<string>)
    requires PlainWord(text, t, s) && MayReturn(text, t, s, r)
    ensures r == Some(Lookup(text, t, s))
  {
    WordIsClean(text, t, s);
    assert text.alpha(Cleaned(text, s)[0]);
    forall w | w in t.noise
      ensures !Noisy(text, s, w)
    {
      NoiseHasSpace(text, s, w);
    }
  }

  function Lookup(text: Text, t: Tables, s: string): string {
    var known := Known(t, text.lower(s)); if known.Some? then known.value else s
  }

  function Given(xs: seq<string>): (os: seq<Option<string>>)
    ensures |os| == |xs| && forall i :: 0 <= i < |xs| ==> os[i] == Some(xs[i])
  {
    if xs == [] then [] else Given(xs[..|xs| - 1]) + [Some(xs[|xs| - 1])]
  }

  lemma {:induction false} SpellingsOfDistinct(text: Text, names: seq<string>)
    requires FoldDistinct(text, names)
    ensures Spellings(text, Given(names)) == names
  {
    if names != [] {
      var n := |names| - 1;
      SpellingsOfDistinct(text, names[..n]);
      assert Given(names)[..n] == Given(names[..n]);
    }
  }

  /** What is collected of plain words with different names. */
  lemma WordsCollected(text: Text, t: Tables, words: seq<string>, names: seq<string>, collected: seq<string>)
    requires (forall i :: 0 <= i < |words| ==> PlainWord(text, t, words[i])) && FoldDistinct(text, names)
    requires |names| == |words| && forall i :: 0 <= i < |words| ==> names[i] == Lookup(text, t, words[i])
    requires Collected(text, t, words, collected)
    ensures collected == names
  {
    var results: seq<Option<string>> :| ResultsOf(text, t, words, results) && collected == Spellings(text, results);
    forall i | 0 <= i < |words|
      ensures results[i] == Some(names[i])
    {
      NthResult(text, t, words, results, i);
      WordResult(text, t, words[i], results[i]);
    }
    assert results == Given(names);
    SpellingsOfDistinct(text, names);
  }

  lemma FilteredOfThree<T>(x: T, y: T, z: T, p: T -> bool)
    ensures Filtered([x, y, z], p)
         == (if p(x) then [x] else []) + ((if p(y) then [y] else []) + if p(z) then [z] else [])
  {
    var xs := [x, y, z];
    assert xs[1..] == [y, z] && xs[1..][1..] == [z] && [z][1..] == [];
    assert Filtered([z], p) == if p(z) then [z] else [];
    assert Filtered([y, z], p) == (if p(y) then [y] else []) + if p(z) then [z] else [];
  }

  lemma OneCityOneCountry(t: Tables, city: string, name: string, country: string)
    requires IsCity(t, city) && !IsCity(t, name) && !IsCity(t, country)
    requires !IsCountry(t, city) && !IsCountry(t, name) && IsCountry(t, country)
    ensures OneOfEach(t, [city, name, country]) && ExpectedCountry(t, [city, name, country]) == t.cityCountries[city]
  {
    FilteredOfThree(city, name, country, s => IsCity(t, s));
    FilteredOfThree(city, name, country, s => IsCountry(t, s));
  }

  /** What the input below needs of a text and tables: a city of a country, another country, and a word that the
      tables do not know and that is a spelling of the first country all the same. */
  ghost predicate Misspelt(text: Text, t: Tables, source: string, words: seq<string>, names: seq<string>) {
    && source != "" && text.split(source) == words && |words| == |names| == 3
    && (forall i :: 0 <= i < 3 ==> PlainWord(text, t, words[i]) && names[i] == Lookup(text, t, words[i]))
    && FoldDistinct(text, names)
    && IsCity(t, names[0]) && !IsCity(t, names[1]) && !IsCity(t, names[2])
    && !IsCountry(t, names[0]) && !IsCountry(t, names[1]) && IsCountry(t, names[2])
    && text.fold(names[1]) == text.fold(t.cityCountries[names[0]])
  }

  /** With such an input the correction puts both spellings into the list, whatever else the tables hold. */
  method CorrectionCollides(text: Text, t: Tables, source: string, ghost words: seq<string>, ghost names: seq<string>)
    returns (collected: seq<string>, place: Place, seen: seq<string>)
    requires Lawful(text, t) && Misspelt(text, t, source, words, names)
    ensures Collected(text, t, Chunks(text, [Some(source)]), collected) && collected == names
    ensures CountryDecided(t, collected, place, seen)
    ensures FoldDistinct(text, collected) && !FoldDistinct(text, seen)
  {
    place, seen, collected := NormalizeSources(text, t, [Some(source)]);
    assert [Some(source)][..0] == [] && Chunks(text, [Some(source)]) == [] + words == words;
    WordsCollected(text, t, words, names, collected);
    assert names == [names[0], names[1], names[2]];
    OneCityOneCountry(t, names[0], names[1], names[2]);
    CorrectionKeepsSpellings(text, t, collected);
    assert names[1] in collected;
  }

  // ----- ... on rows of the code's tables -----------------------------------------------------------

  /** `str.lower` of Latin and Russian letters; the others here, U+1C82 among them, stay as they are. */
  function LowerChar(c: char): char {
    if 'A' <= c <= 'Z' || '\U{0410}' <= c <= '\U{042f}' then ((c as int) + 32) as char else c
  }

  /** `str.casefold`, which also makes an o of U+1C82. */
  function FoldChar(c: char): char { if c == '\U{1c82}' then '\U{043e}' else LowerChar(c) }

  function Mapped(s: string, f: char -> char): (r: string)
    ensures |r| == |s| && forall i :: 0 <= i < |s| ==> r[i] == f(s[i])
  {
    seq(|s|, i requires 0 <= i < |s| => f(s[i]))
  }

  const NOISE: set<string> := {
    "office", "офис", "remote", "hybrid", "onsite", "удалённо", "удаленно", "удалённая работа", "удаленная работа",
    "гибрид", "разные локации", "не указано", "n/a"
  }

  const MOSCOW := "Москва"
  const RUSSIA := "Россия"
  const KAZAKHSTAN := "Казахстан"

  /** Россия with U+1C82 in place of the o. */
  const MISSPELT := "Р\U{1c82}ссия"

  /** Keys of the tables. */
  const MOSCOW_KEY := "москва"
  const RUSSIA_KEY := "россия"
  const KAZAKHSTAN_KEY := "kz"

  const SOURCE := "Москва, Р\U{1c82}ссия, kz"

  /** Text as the code sees it, as far as the input goes: `split` is given for it alone. */
  function CodeText(source: string, words: seq<string>): Text {
    Text(s => Mapped(s, LowerChar), s => Mapped(s, FoldChar), c => c != ' ' && c != ',', c => c == ' ',
         (c, d) => c == d, s => if s == source then words else [s])
  }

  /** The rows of the code's tables that the input meets. */
  function CodeRows(noise: set<string>, moscowKey: string, moscow: string, russiaKey: string, russia: string,
                    kzKey: string, kz: string): Tables
  {
    Tables(noise, map[kzKey := kz, russiaKey := russia], map[moscowKey := moscow], map[], map[moscow := russia])
  }

  lemma NoNewSpace(s: string)
    requires ' ' !in s
    ensures ' ' !in Mapped(s, LowerChar)
  {
    assert forall i :: 0 <= i < |s| ==> s[i] in s;
  }

  predicate NoMarks(s: string) { s != "" && forall c :: c in s ==> c !in " .,(" }

  /** One word that is no noise. */
  predicate OneWord(s: string) { NoMarks(s) && Mapped(s, LowerChar) !in NOISE }

  lemma ByFirst(s: string, t: string)
    requires s != "" && t != "" && s[0] != t[0]
    ensures s != t
  {
  }

  lemma Lowered()
    ensures Mapped(MOSCOW, LowerChar) == "москва" && Mapped(KAZAKHSTAN_KEY, LowerChar) == "kz"
    ensures Mapped(KAZAKHSTAN, LowerChar) == "казахстан" && Mapped(RUSSIA, LowerChar) == "россия"
    ensures Mapped(MISSPELT, LowerChar) == "р\U{1c82}ссия"
  {
  }

  lemma NoNoiseWords()
    ensures "москва" !in NOISE && "казахстан" !in NOISE && "россия" !in NOISE
    ensures "р\U{1c82}ссия" !in NOISE && "kz" !in NOISE && "" !in NOISE
  {
  }

  lemma NoMarksInside()
    ensures NoMarks(MOSCOW) && NoMarks(RUSSIA) && NoMarks(KAZAKHSTAN) && NoMarks(MISSPELT) && NoMarks(KAZAKHSTAN_KEY)
  {
  }

  lemma Spelling()
    ensures OneWord(MOSCOW) && OneWord(RUSSIA) && OneWord(KAZAKHSTAN) && OneWord(MISSPELT) && OneWord(KAZAKHSTAN_KEY)
    ensures Mapped(MOSCOW, LowerChar) == MOSCOW_KEY && Mapped(KAZAKHSTAN_KEY, LowerChar) == KAZAKHSTAN_KEY
  {
    Lowered();
    NoNoiseWords();
    NoMarksInside();
  }

  lemma SameFold()
    ensures Mapped(MISSPELT, FoldChar) == RUSSIA_KEY == Mapped(RUSSIA, FoldChar)
  {
  }

  lemma Differences()
    ensures MOSCOW != RUSSIA && MOSCOW != KAZAKHSTAN && MISSPELT != MOSCOW && MISSPELT != KAZAKHSTAN
    ensures MISSPELT != RUSSIA && KAZAKHSTAN_KEY != MOSCOW
    ensures RUSSIA_KEY != KAZAKHSTAN_KEY && KAZAKHSTAN_KEY != MOSCOW_KEY
    ensures RUSSIA != KAZAKHSTAN && MOSCOW_KEY != RUSSIA_KEY && SOURCE != ""
  {
    ByFirst(MOSCOW_KEY, RUSSIA_KEY);
    ByFirst(MOSCOW, RUSSIA);
    ByFirst(MOSCOW, KAZAKHSTAN);
    ByFirst(MISSPELT, MOSCOW);
    ByFirst(MISSPELT, KAZAKHSTAN);
    ByFirst(RUSSIA, KAZAKHSTAN);
    assert MISSPELT[1] != RUSSIA[1];
    ByFirst(KAZAKHSTAN_KEY, MOSCOW);
    ByFirst(RUSSIA_KEY, KAZAKHSTAN_KEY);
    ByFirst(KAZAKHSTAN_KEY, MOSCOW_KEY);
  }

  lemma MisspeltIsUnknown()
    ensures Mapped(MISSPELT, LowerChar) != RUSSIA_KEY && Mapped(MISSPELT, LowerChar) != KAZAKHSTAN_KEY
    ensures Mapped(MISSPELT, LowerChar) != MOSCOW_KEY
    ensures Mapped(MISSPELT, FoldChar) != Mapped(MOSCOW, FoldChar)
    ensures Mapped(MISSPELT, FoldChar) != Mapped(KAZAKHSTAN, FoldChar)
    ensures Mapped(MOSCOW, FoldChar) != Mapped(KAZAKHSTAN, FoldChar)
  {
    assert Mapped(MISSPELT, LowerChar)[1] != RUSSIA_KEY[1];
    ByFirst(Mapped(MISSPELT, LowerChar), KAZAKHSTAN_KEY);
    ByFirst(Mapped(MISSPELT, LowerChar), MOSCOW_KEY);
    ByFirst(Mapped(MISSPELT, FoldChar), Mapped(MOSCOW, FoldChar));
    ByFirst(Mapped(MISSPELT, FoldChar), Mapped(KAZAKHSTAN, FoldChar));
    ByFirst(Mapped(MOSCOW, FoldChar), Mapped(KAZAKHSTAN, FoldChar));
  }

  lemma TwoRows(k1: string, v1: string, k2: string, v2: string)
    requires k1 != k2
    ensures map[k1 := v1, k2 := v2].Values == {v1, v2}
  {
    var m := map[k1 := v1, k2 := v2];
    assert k1 in m && m[k1] == v1 && k2 in m && m[k2] == v2;
  }

  lemma WordIsPlain(text: Text, t: Tables, source: string, words: seq<string>, s: string)
    requires text == CodeText(source, words) && t.noise == NOISE && OneWord(s)
    ensures PlainWord(text, t, s)
  {
    assert ' ' in " .,(" && ',' in " .,(" && s[0] in s;
    NoNewSpace(s);
  }

  lemma PlainIsClean(text: Text, t: Tables, s: string)
    requires PlainWord(text, t, s)
    ensures Clean(text, t, s)
  {
    forall w | w in t.noise
      ensures !Noisy(text, s, w)
    {
      NoiseHasSpace(text, s, w);
    }
  }

  lemma NameIsClean(text: Text, t: Tables, source: string, words: seq<string>, s: string)
    requires text == CodeText(source, words) && t.noise == NOISE && OneWord(s)
    ensures Clean(text, t, s)
  {
    WordIsPlain(text, t, source, words, s);
    PlainIsClean(text, t, s);
  }

  lemma FewRowsAreLawful(text: Text, t: Tables, m: string, r: string, k: string)
    requires "" !in t.noise && t.countries.Values == {k, r} && t.cities.Values == {m} && t.regions == map[]
    requires t.cityCountries == map[m := r] && m != r && m != k
    requires Clean(text, t, m) && Clean(text, t, r) && Clean(text, t, k)
    ensures Lawful(text, t)
  {
    forall key | key in t.countries
      ensures Clean(text, t, t.countries[key])
    {
      assert t.countries[key] in t.countries.Values;
    }
    forall key | key in t.cities
      ensures Clean(text, t, t.cities[key])
    {
      assert t.cities[key] in t.cities.Values;
    }
  }

  lemma RowsAreLawful(text: Text, t: Tables, source: string, words: seq<string>, mk: string, m: string, rk: string,
                      r: string, kk: string, k: string)
    requires text == CodeText(source, words) && t == CodeRows(NOISE, mk, m, rk, r, kk, k)
    requires OneWord(m) && OneWord(r) && OneWord(k) && "" !in NOISE && m != r && m != k && rk != kk
    ensures Lawful(text, t) && t.countries.Values == {k, r}
  {
    TwoRows(kk, k, rk, r);
    assert t.cities.Values == {m} by {
      assert mk in t.cities && t.cities[mk] == m;
    }
    NameIsClean(text, t, source, words, m);
    NameIsClean(text, t, source, words, r);
    NameIsClean(text, t, source, words, k);
    FewRowsAreLawful(text, t, m, r, k);
  }

  lemma RowsKnow(t: Tables, mk: string, m: string, rk: string, r: string, kk: string, k: string, lowered: string)
    requires t == CodeRows(NOISE, mk, m, rk, r, kk, k) && rk != kk && kk != mk && mk != rk
    ensures Known(t, mk) == Some(m) && Known(t, kk) == Some(k)
    ensures lowered != mk && lowered != kk && lowered != rk ==> Known(t, lowered) == None
  {
  }

  lemma NamesToldApart(text: Text, t: Tables, m: string, o: string, k: string, r: string)
    requires t.countries.Values == {k, r} && t.cityCountries == map[m := r]
    requires m != r && m != k && o != m && o != k && o != r
    requires text.fold(o) != text.fold(m) && text.fold(o) != text.fold(k) && text.fold(m) != text.fold(k)
    ensures FoldDistinct(text, [m, o, k])
    ensures IsCity(t, m) && !IsCity(t, o) && !IsCity(t, k) && t.cityCountries[m] == r
    ensures !IsCountry(t, m) && !IsCountry(t, o) && IsCountry(t, k)
  {
  }

  lemma WordsFit(text: Text, t: Tables, m: string, o: string, kk: string, k: string)
    requires PlainWord(text, t, m) && PlainWord(text, t, o) && PlainWord(text, t, kk)
    requires Lookup(text, t, m) == m && Lookup(text, t, o) == o && Lookup(text, t, kk) == k
    ensures var words, names := [m, o, kk], [m, o, k];
            forall i :: 0 <= i < 3 ==> PlainWord(text, t, words[i]) && names[i] == Lookup(text, t, words[i])
  {
  }

  lemma RowsFit(text: Text, t: Tables, mk: string, m: string, rk: string, r: string, kk: string, k: string, o: string,
                source: string)
    requires text == CodeText(source, [m, o, kk]) && t == CodeRows(NOISE, mk, m, rk, r, kk, k)
    requires t.countries.Values == {k, r} && OneWord(m) && OneWord(o) && OneWord(kk) && source != ""
    requires m != r && m != k && o != m && o != k && o != r && r != k && rk != kk && kk != mk && mk != rk
    requires text.lower(m) == mk && text.lower(kk) == kk
    requires text.lower(o) != rk && text.lower(o) != kk && text.lower(o) != mk
    requires text.fold(o) == text.fold(r) && text.fold(o) != text.fold(m) && text.fold(o) != text.fold(k)
    requires text.fold(m) != text.fold(k)
    ensures Misspelt(text, t, source, [m, o, kk], [m, o, k])
  {
    var words := [m, o, kk];
    assert text.split(source) == words;
    WordIsPlain(text, t, source, words, m);
    WordIsPlain(text, t, source, words, o);
    WordIsPlain(text, t, source, words, kk);
    RowsKnow(t, mk, m, rk, r, kk, k, text.lower(o));
    WordsFit(text, t, m, o, kk, k);
    NamesToldApart(text, t, m, o, k, r);
  }

  /** So "Москва, Россия, kz", misspelt, ends with two spellings of Россия. */
  method RussiaTwice() returns (text: Text, t: Tables, collected: seq<string>, place: Place, seen: seq<string>)
    ensures t == CodeRows(NOISE, MOSCOW_KEY, MOSCOW, RUSSIA_KEY, RUSSIA, KAZAKHSTAN_KEY, KAZAKHSTAN)
    ensures text == CodeText(SOURCE, [MOSCOW, MISSPELT, KAZAKHSTAN_KEY])
    ensures Lawful(text, t) && Collected(text, t, Chunks(text, [Some(SOURCE)]), collected)
    ensures CountryDecided(t, collected, place, seen)
    ensures FoldDistinct(text, collected) && !FoldDistinct(text, seen)
  {
    text := CodeText(SOURCE, [MOSCOW, MISSPELT, KAZAKHSTAN_KEY]);
    t := CodeRows(NOISE, MOSCOW_KEY, MOSCOW, RUSSIA_KEY, RUSSIA, KAZAKHSTAN_KEY, KAZAKHSTAN);
    Spelling();
    SameFold();
    NoNoiseWords();
    Differences();
    MisspeltIsUnknown();
    RowsAreLawful(text, t, SOURCE, [MOSCOW, MISSPELT, KAZAKHSTAN_KEY], MOSCOW_KEY, MOSCOW, RUSSIA_KEY, RUSSIA,
                  KAZAKHSTAN_KEY, KAZAKHSTAN);
    RowsFit(text, t, MOSCOW_KEY, MOSCOW, RUSSIA_KEY, RUSSIA, KAZAKHSTAN_KEY, KAZAKHSTAN, MISSPELT, SOURCE);
    collected, place, seen := CorrectionCollides(text, t, SOURCE, [MOSCOW, MISSPELT, KAZAKHSTAN_KEY],
                                                 [MOSCOW, MISSPELT, KAZAKHSTAN]);
  }
}
