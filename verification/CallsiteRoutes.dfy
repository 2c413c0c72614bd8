/**
 Which all-reduce calls are bypassed and which go to the call-site runtime: predicates on a call's
 kind, its running number and its element count, configured by ranges, lists and residues.
 */
module CallsiteRoutes {
  import opened Options
  import opened DivMod

  /** A call's kind: its normalised route name and the layer prefix it carries, if any. */
  datatype Kind = Kind(route: string, prefix: string)

  /** A bound below zero is unset. */
  datatype Range = Range(lo: int, hi: int) {
    predicate Contains(x: int) {
      !(lo >= 0 && x < lo) && !(hi >= 0 && x > hi)
    }

    predicate Configured() {
      lo >= 0 || hi >= 0
    }
  }

  /** An explicit list takes the place of the range. */
  datatype Numels = Numels(listed: Option<set<int>>, range: Range) {
    predicate Matches(numel: int) {
      if listed.Some? then numel in listed.value else range.Contains(numel)
    }

    predicate Configured() {
      listed.Some? || range.Configured()
    }
  }

  datatype Residue = Residue(base: int, mod: int, rem: int)

  /** The last tests of a call's running number: a range, then a residue, then whether sizes were configured. */
  predicate SiteMatches(range: Range, residue: Residue, sizesConfigured: bool, site: nat) {
    if !range.Contains(site) then false
    else if residue.base >= 0 && residue.mod > 0 then (site - residue.base) % residue.mod == residue.rem
    else sizesConfigured
  }

  datatype Bypass = Bypass(
    kind: Option<string>,
    numels: Numels,
    prefixes: set<string>,
    occurrences: set<int>,
    occurrenceRange: Range,
    sites: set<int>,
    siteRange: Range,
    residue: Residue)

  predicate OccurrenceMatches(b: Bypass, occurrence: Option<nat>) {
    if b.occurrences == {} && b.occurrenceRange.lo < 0 && b.occurrenceRange.hi < 0 then true
    else if occurrence.None? then false
    else if b.occurrences != {} && occurrence.value !in b.occurrences then false
    else b.occurrenceRange.Contains(occurrence.value)
  }

  predicate Bypasses(b: Bypass, kind: Kind, site: nat, numel: nat, occurrence: Option<nat>) {
    if b.kind.Some? && b.kind.value != kind.route then false
    else if !b.numels.Matches(numel) then false
    else if b.prefixes != {} && kind.prefix != "" && kind.prefix in b.prefixes then OccurrenceMatches(b, occurrence)
    else if b.sites != {} then site in b.sites
    else SiteMatches(b.siteRange, b.residue, b.numels.Configured(), site)
  }

  datatype SiteRoute = SiteRoute(
    library: string,
    kind: Option<string>,
    numels: Numels,
    sites: Option<set<int>>,
    siteRange: Range,
    residue: Residue)

  predicate RoutesToSite(r: SiteRoute, kind: Kind, site: nat, numel: nat) {
    if !r.numels.Matches(numel) then false
    else if r.kind.Some? && r.kind.value != kind.route then false
    else if r.sites.Some? then site in r.sites.value
    else SiteMatches(r.siteRange, r.residue, r.numels.Configured(), site)
  }

  function RouteOf(r: SiteRoute, kind: Kind, site: nat, numel: nat): string {
    if r.library != "" && RoutesToSite(r, kind, site, numel) then "callsite" else kind.route
  }

  // ---------------------------------------------------------------- what the settings mean

  const UNSET := Range(-1, -1)
  const NO_RESIDUE := Residue(-1, 0, 0)

  /** The call `j` after `start` is one that the residue picks. */
  predicate Picked(residue: Residue, sizes: bool, start: nat, j: nat) {
    SiteMatches(UNSET, residue, sizes, start + j)
  }

  /** Of any `mod` consecutive calls exactly one has the wanted residue. */
  lemma OneSiteInEachPeriod(residue: Residue, sizes: bool, start: nat) returns (k: nat)
    requires residue.base >= 0 && residue.mod > 0 && 0 <= residue.rem < residue.mod
    ensures k < residue.mod && forall j: nat | j < residue.mod :: Picked(residue, sizes, start, j) <==> j == k
  {
    var m := residue.mod;
    var at := (start - residue.base) % m;
    k := if residue.rem >= at then residue.rem - at else residue.rem - at + m;
    forall j: nat | j < m
      ensures Picked(residue, sizes, start, j) <==> j == k
    {
      ShiftedMod(start - residue.base, j, m);
    }
  }

  lemma ShiftedMod(x: int, j: nat, m: int)
    requires m > 0 && j < m
    ensures (x + j) % m == if x % m + j < m then x % m + j else x % m + j - m
  {
    var q, r := x / m, x % m;
    if r + j < m {
      DivUnique(x + j, m, q, r + j);
    } else {
      assert (q + 1) * m == q * m + m;
      DivUnique(x + j, m, q + 1, r + j - m);
    }
  }

  predicate NoResidue(residue: Residue) {
    residue.base < 0 || residue.mod <= 0
  }

  /** No list and no residue is set; ranges and sizes may be. */
  predicate RangesOnly(b: Bypass, r: SiteRoute) {
    && b.prefixes == {} && b.sites == {} && NoResidue(b.residue)
    && (r.library == "" || (r.sites.None? && NoResidue(r.residue)))
  }

  /**
   Without lists and residues a site range picks a call only together with a size setting: a range
   alone, whatever its bounds, bypasses nothing and sends nothing to the call-site runtime.
   */
  lemma RangeNeedsSizes(b: Bypass, r: SiteRoute, kind: Kind, site: nat, numel: nat, occurrence: Option<nat>)
    requires RangesOnly(b, r)
    ensures Bypasses(b, kind, site, numel, occurrence)
       <==> (b.kind == None || b.kind == Some(kind.route)) && b.numels.Configured() && b.numels.Matches(numel) && b.siteRange.Contains(site)
    ensures RouteOf(r, kind, site, numel) != kind.route
       <==> kind.route != "callsite" && r.library != "" && (r.kind == None || r.kind == Some(kind.route))
            && r.numels.Configured() && r.numels.Matches(numel) && r.siteRange.Contains(site)
  {
  }

  /** With a list of running numbers and no listed prefix, the calls on the list whose kind and size match. */
  lemma ListedSites(b: Bypass, kind: Kind, site: nat, numel: nat, occurrence: Option<nat>)
    requires b.sites != {} && (kind.prefix == "" || kind.prefix !in b.prefixes)
    ensures Bypasses(b, kind, site, numel, occurrence)
       <==> site in b.sites && (b.kind == None || b.kind == Some(kind.route)) && SizeFits(b.numels, numel)
  {
  }

  /** A size is on the list, if there is one, and otherwise not outside the bounds that are set. */
  predicate SizeFits(n: Numels, numel: int) {
    if n.listed.Some? then numel in n.listed.value
    else (n.range.lo < 0 || n.range.lo <= numel) && (n.range.hi < 0 || numel <= n.range.hi)
  }

  /** A listed prefix decides before any list of numbers: by its occurrence number, if one is asked for. */
  lemma ListedPrefixes(b: Bypass, kind: Kind, site: nat, numel: nat, occurrence: Option<nat>)
    requires kind.prefix != "" && kind.prefix in b.prefixes
    ensures Bypasses(b, kind, site, numel, occurrence)
       <==> && (b.kind == None || b.kind == Some(kind.route)) && SizeFits(b.numels, numel)
            && ((b.occurrences == {} && b.occurrenceRange.lo < 0 && b.occurrenceRange.hi < 0)
                || (&& occurrence.Some? && (b.occurrences == {} || occurrence.value in b.occurrences)
                    && (b.occurrenceRange.lo < 0 || b.occurrenceRange.lo <= occurrence.value)
                    && (b.occurrenceRange.hi < 0 || occurrence.value <= b.occurrenceRange.hi)))
  {
  }

  /** With a residue and no list, the calls at that residue whose number is in range and whose kind and size match. */
  lemma ResidueSites(b: Bypass, kind: Kind, site: nat, numel: nat, occurrence: Option<nat>)
    requires b.sites == {} && (kind.prefix == "" || kind.prefix !in b.prefixes) && b.residue.base >= 0 && b.residue.mod > 0
    ensures Bypasses(b, kind, site, numel, occurrence)
       <==> && (b.kind == None || b.kind == Some(kind.route)) && SizeFits(b.numels, numel)
            && (b.siteRange.lo < 0 || b.siteRange.lo <= site) && (b.siteRange.hi < 0 || site <= b.siteRange.hi)
            && (site - b.residue.base) % b.residue.mod == b.residue.rem
  {
  }

  /** Which calls go to the call-site runtime when it lists running numbers or sets a residue. */
  lemma ListedRoutes(r: SiteRoute, kind: Kind, site: nat, numel: nat)
    requires r.sites.Some? || (r.residue.base >= 0 && r.residue.mod > 0)
    ensures RoutesToSite(r, kind, site, numel)
       <==> && (r.kind == None || r.kind == Some(kind.route)) && SizeFits(r.numels, numel)
            && (if r.sites.Some? then site in r.sites.value
                else && (r.siteRange.lo < 0 || r.siteRange.lo <= site) && (r.siteRange.hi < 0 || site <= r.siteRange.hi)
                     && (site - r.residue.base) % r.residue.mod == r.residue.rem)
  {
  }

  /** With nothing configured no call is bypassed and none goes to the call-site runtime. */
  lemma NothingConfigured(b: Bypass, r: SiteRoute, kind: Kind, site: nat, numel: nat, occurrence: Option<nat>)
    requires b.prefixes == {} && b.sites == {} && b.siteRange == UNSET && b.residue == NO_RESIDUE && !b.numels.Configured()
    requires r.library == "" || (r.sites.None? && r.siteRange == UNSET && r.residue == NO_RESIDUE && !r.numels.Configured())
    ensures !Bypasses(b, kind, site, numel, occurrence)
    ensures RouteOf(r, kind, site, numel) == kind.route
  {
  }

  // ---------------------------------------------------------------- the parsed lists

  /** The numbers among a list's items; a malformed item reads as nothing. */
  function Numbers(items: seq<Option<int>>): set<int> {
    set i | 0 <= i < |items| && items[i].Some? :: items[i].value
  }

  ghost predicate Malformed(items: seq<Option<int>>) {
    exists i | 0 <= i < |items| :: items[i].None?
  }

  /** A list setting parsed once per raw text; `split` breaks the text into items. */
  class SetCache {
    const split: string -> seq<Option<int>>
    var cached: Option<(string, set<int>)>

    ghost predicate Valid()
      reads this
    {
      cached.Some? ==> cached.value.1 == Numbers(split(cached.value.0))
    }

    constructor (split: string -> seq<Option<int>>)
      ensures Valid() && this.split == split && cached.None?
    {
      this.split, cached := split, None;
    }

    /**
     The set for the text, whether it was parsed now or before. A strict lookup raises on a malformed
     item, but only when it parses: a set cached by an earlier lenient lookup is returned as it is.
     */
    method Lookup(raw: string, strict: bool) returns (result: Option<set<int>>)
      requires Valid()
      modifies this
      ensures Valid()
      ensures result.Some? ==> result.value == Numbers(split(raw)) && cached == Some((raw, result.value))
      ensures result.None? ==> cached == old(cached)
      ensures result.None? <==> strict && Malformed(split(raw)) && !(old(cached).Some? && old(cached).value.0 == raw)
    {
      if cached.Some? && cached.value.0 == raw {
        return Some(cached.value.1);
      }
      var items := split(raw);
      var parsed := {};
      for i := 0 to |items|
        invariant parsed == Numbers(items[..i])
        invariant strict ==> !Malformed(items[..i])
        invariant cached == old(cached)
      {
        if items[i].Some? {
          parsed := parsed + {items[i].value};
        } else if strict {
          return None;
        }
        NumbersStep(items, i);
      }
      assert items[..|items|] == items;
      cached := Some((raw, parsed));
      return Some(parsed);
    }
  }

  lemma NumbersStep(items: seq<Option<int>>, i: nat)
    requires i < |items|
    ensures Numbers(items[..i + 1]) == Numbers(items[..i]) + (if items[i].Some? then {items[i].value} else {})
    ensures Malformed(items[..i + 1]) <==> Malformed(items[..i]) || items[i].None?
  {
    var longer, shorter := items[..i + 1], items[..i];
    assert longer == shorter + [items[i]];
    if Malformed(shorter) {
      var j :| 0 <= j < |shorter| && shorter[j].None?;
      assert longer[j].None?;
    }
    forall x | x in Numbers(shorter)
      ensures x in Numbers(longer)
    {
      var j :| 0 <= j < |shorter| && shorter[j].Some? && shorter[j].value == x;
      assert longer[j] == shorter[j];
    }
    if items[i].Some? {
      assert longer[i].Some? && longer[i].value in Numbers(longer);
    }
  }
}
