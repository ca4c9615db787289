// The data registry (engine/registry.py): canonical entity names mapped to
// their metadata, the group index built at import time, search, resolution
// and group listing. The registry is an ordered list of (name, entry) pairs,
// the order of Python's dict.
module Registry {
  import opened Wrappers
  import opened Text
  import opened Sorting

  /** How a valuation model is configured on an entity. */
  datatype ValSpec = ValSpec(model: string, inputs: seq<string>)

  /**
   * A registry entry. `locator` is the entry's own "key" field: the upstream
   * symbol or source field, which for market instruments differs from the
   * canonical name (usdtry -> "TRY=X").
   */
  datatype Entry = Entry(
    name: string,
    group: string,
    locator: string,
    source: string,
    unit: Option<string>,
    explain: Option<string>,
    chartable: bool,
    technicalKey: Option<string>,
    valuation: Option<ValSpec>,
    correlations: Option<seq<string>>)

  datatype Registered = Registered(id: string, entry: Entry)

  /** A dictionary built from an entry plus a "key" field. */
  datatype EntityView = EntityView(key: string, entry: Entry)

  predicate UniqueIds(reg: seq<Registered>)
  {
    forall i, j :: 0 <= i < j < |reg| ==> reg[i].id != reg[j].id
  }

  predicate IsRegistered(reg: seq<Registered>, id: string)
  {
    exists i :: 0 <= i < |reg| && reg[i].id == id
  }

  /** `DATA_REGISTRY.get(id)`. */
  function Lookup(reg: seq<Registered>, id: string): (r: Option<Entry>)
    ensures r.Some? <==> IsRegistered(reg, id)
    ensures r.Some? ==> exists i :: 0 <= i < |reg| && reg[i] == Registered(id, r.value)
  {
    if reg == [] then None
    else if reg[0].id == id then
      assert reg[0] == Registered(id, reg[0].entry);
      Some(reg[0].entry)
    else
      var r := Lookup(reg[1..], id);
      assert forall i :: 0 < i < |reg| ==> reg[i] == reg[1..][i - 1];
      assert IsRegistered(reg, id) ==> IsRegistered(reg[1..], id) by {
        if IsRegistered(reg, id) {
          var i :| 0 <= i < |reg| && reg[i].id == id;
          assert reg[1..][i - 1].id == id;
        }
      }
      r
  }

  /** A name carried by no entry is not found. */
  lemma LookupAbsent(reg: seq<Registered>, id: string)
    requires forall r :: r in reg ==> r.id != id
    ensures Lookup(reg, id) == None
  {
  }

  /** Looking up in a concatenation tries the first part, then the second. */
  lemma {:induction false} LookupAppend(a: seq<Registered>, b: seq<Registered>, id: string)
    ensures Lookup(a + b, id) == if Lookup(a, id).Some? then Lookup(a, id) else Lookup(b, id)
  {
    if a == [] {
      assert a + b == b;
    } else {
      assert (a + b)[1..] == a[1..] + b;
      LookupAppend(a[1..], b, id);
    }
  }

  /** A registered entry's group is a group of the registry. */
  lemma LookupGroup(reg: seq<Registered>, id: string)
    requires IsRegistered(reg, id)
    ensures HasGroup(reg, Lookup(reg, id).value.group)
  {
    var i :| 0 <= i < |reg| && reg[i] == Registered(id, Lookup(reg, id).value);
  }

  /** With unique names, looking up a listed name finds that listing's entry. */
  lemma LookupUnique(reg: seq<Registered>, i: nat)
    requires UniqueIds(reg) && i < |reg|
    ensures Lookup(reg, reg[i].id) == Some(reg[i].entry)
  {
    var r := Lookup(reg, reg[i].id);
    var j :| 0 <= j < |reg| && reg[j] == Registered(reg[i].id, r.value);
    assert i == j;
  }

  // ----- GROUP_ALIASES ----------------------------------------------------

  /** The names of the entries in group `g`, in registry order. */
  function IdsInGroup(reg: seq<Registered>, g: string): (r: seq<string>)
    ensures |r| <= |reg|
    ensures forall id :: id in r ==> exists i :: 0 <= i < |reg| && reg[i].id == id && reg[i].entry.group == g
  {
    if reg == [] then []
    else
      var init := reg[..|reg| - 1];
      var last := reg[|reg| - 1];
      var r := IdsInGroup(init, g) + (if last.entry.group == g then [last.id] else []);
      assert forall i :: 0 <= i < |init| ==> init[i] == reg[i];
      r
  }

  lemma {:induction false} IdsInGroupComplete(reg: seq<Registered>, g: string, i: nat)
    requires i < |reg| && reg[i].entry.group == g
    ensures reg[i].id in IdsInGroup(reg, g)
  {
    if i < |reg| - 1 {
      IdsInGroupComplete(reg[..|reg| - 1], g, i);
    }
  }

  /** The groups that occur in the registry. */
  function GroupsOf(reg: seq<Registered>): (r: set<string>)
    ensures forall i :: 0 <= i < |reg| ==> reg[i].entry.group in r
  {
    set i | 0 <= i < |reg| :: reg[i].entry.group
  }

  ghost predicate HasGroup(reg: seq<Registered>, g: string)
  {
    exists i :: 0 <= i < |reg| && reg[i].entry.group == g
  }

  /** GROUP_ALIASES: every group that occurs, mapped to its members' names in registry order. */
  function GroupAliases(reg: seq<Registered>): (r: map<string, seq<string>>)
    ensures forall g :: g in r <==> HasGroup(reg, g)
  {
    map g | g in GroupsOf(reg) :: IdsInGroup(reg, g)
  }

  lemma {:induction false} IdsInGroupAbsent(reg: seq<Registered>, g: string)
    requires !HasGroup(reg, g)
    ensures IdsInGroup(reg, g) == []
  {
    if IdsInGroup(reg, g) != [] {
      assert IdsInGroup(reg, g)[0] in IdsInGroup(reg, g);
    }
  }

  lemma GroupsOfSnoc(s: seq<Registered>, x: Registered)
    ensures GroupsOf(s + [x]) == GroupsOf(s) + {x.entry.group}
  {
    var t := s + [x];
    forall g | g in GroupsOf(t)
      ensures g in GroupsOf(s) + {x.entry.group}
    {
      var i :| 0 <= i < |t| && t[i].entry.group == g;
      if i < |s| {
        assert s[i] == t[i];
      }
    }
    forall g | g in GroupsOf(s)
      ensures g in GroupsOf(t)
    {
      var i :| 0 <= i < |s| && s[i].entry.group == g;
      assert t[i] == s[i];
    }
    assert t[|s|] == x;
  }

  lemma IdsInGroupSnoc(s: seq<Registered>, x: Registered, g: string)
    ensures IdsInGroup(s + [x], g) == IdsInGroup(s, g) + (if x.entry.group == g then [x.id] else [])
  {
    assert (s + [x])[..|s|] == s;
  }

  lemma GroupAliasesSnoc(s: seq<Registered>, x: Registered)
    ensures var p := GroupAliases(s);
            var g := x.entry.group;
            GroupAliases(s + [x]) == p[g := (if g in p then p[g] else []) + [x.id]]
  {
    var p := GroupAliases(s);
    var g := x.entry.group;
    var lhs := GroupAliases(s + [x]);
    var rhs := p[g := (if g in p then p[g] else []) + [x.id]];
    assert lhs.Keys == rhs.Keys by {
      GroupsOfSnoc(s, x);
    }
    forall h | h in lhs
      ensures lhs[h] == rhs[h]
    {
      IdsInGroupSnoc(s, x, h);
      if h == g && g !in p {
        IdsInGroupAbsent(s, g);
      }
    }
    assert lhs == rhs;
  }

  predicate NoDuplicates(ids: seq<string>)
  {
    forall a, b :: 0 <= a < b < |ids| ==> ids[a] != ids[b]
  }

  lemma {:induction false} IdsInGroupDistinct(reg: seq<Registered>, g: string)
    requires UniqueIds(reg)
    ensures NoDuplicates(IdsInGroup(reg, g))
  {
    if reg != [] {
      var init := reg[..|reg| - 1];
      var last := reg[|reg| - 1];
      IdsInGroupDistinct(init, g);
      var ids := IdsInGroup(init, g);
      if last.entry.group == g {
        assert last.id !in ids;
        assert IdsInGroup(reg, g) == ids + [last.id];
      }
    }
  }

  /**
   * GROUP_ALIASES lists every name exactly once, under its own group: each
   * group's list has no repeats, holds only that group's names, and every
   * name appears in its group's list.
   */
  lemma GroupAliasesPartition(reg: seq<Registered>)
    requires UniqueIds(reg)
    ensures forall i :: 0 <= i < |reg| ==>
              reg[i].entry.group in GroupAliases(reg) && reg[i].id in GroupAliases(reg)[reg[i].entry.group]
    ensures forall g, id :: g in GroupAliases(reg) && id in GroupAliases(reg)[g] ==>
              exists i :: 0 <= i < |reg| && reg[i].id == id && reg[i].entry.group == g
    ensures forall g :: g in GroupAliases(reg) ==> NoDuplicates(GroupAliases(reg)[g])
  {
    forall i | 0 <= i < |reg|
      ensures reg[i].entry.group in GroupAliases(reg) && reg[i].id in GroupAliases(reg)[reg[i].entry.group]
    {
      IdsInGroupComplete(reg, reg[i].entry.group, i);
    }
    forall g | g in GroupAliases(reg)
      ensures NoDuplicates(GroupAliases(reg)[g])
    {
      IdsInGroupDistinct(reg, g);
    }
  }

  /** One pass of the import-time loop: add the entry's name to its group's list, opening the list when needed. */
  method AddAlias(aliases0: map<string, seq<string>>, s: seq<Registered>, x: Registered)
    returns (aliases: map<string, seq<string>>)
    requires aliases0 == GroupAliases(s)
    ensures aliases == GroupAliases(s + [x])
  {
    var g := x.entry.group;
    aliases := aliases0;
    if g !in aliases {
      aliases := aliases[g := []];
    }
    aliases := aliases[g := aliases[g] + [x.id]];
    GroupAliasesSnoc(s, x);
  }

  /** The import-time loop that fills GROUP_ALIASES. */
  method BuildGroupAliases(reg: seq<Registered>) returns (aliases: map<string, seq<string>>)
    ensures aliases == GroupAliases(reg)
  {
    aliases := map[];
    for i := 0 to |reg|
      invariant aliases == GroupAliases(reg[..i])
    {
      aliases := AddAlias(aliases, reg[..i], reg[i]);
      assert reg[..i] + [reg[i]] == reg[..i + 1];
    }
    assert reg[..|reg|] == reg;
  }

  // ----- search_registry ------------------------------------------------

  datatype MatchType = Exact | GroupMatch | Fuzzy

  /** One search result: the entry's dictionary with "match_type" (and "score" for fuzzy hits). */
  datatype Hit = Hit(view: EntityView, matchType: MatchType, score: nat)

  /** `query.lower().strip().lstrip("@")`. */
  function Normalize(query: string): string
  {
    LStripChar(Strip(Lower(query)), '@')
  }

  /** The text a fuzzy query is matched against: name, title, group and explanation, lower-cased. */
  function Searchable(r: Registered): string
  {
    Lower(r.id + " " + r.entry.name + " " + r.entry.group + " " + r.entry.explain.GetOr(""))
  }

  /** Rank: 3 when the query is in the canonical name, 2 when in the title, else 1. */
  function FuzzyScore(r: Registered, q: string): (s: nat)
    ensures 1 <= s <= 3
    ensures s == 3 <==> Contains(r.id, q)
    ensures s == 2 <==> !Contains(r.id, q) && Contains(Lower(r.entry.name), q)
  {
    if Contains(r.id, q) then 3
    else if Contains(Lower(r.entry.name), q) then 2
    else 1
  }

  /** The result dictionaries carry the entry's own "key" (its locator), which overrides the name. */
  function ViewOf(r: Registered): (v: EntityView)
    ensures v.key == r.entry.locator && v.entry == r.entry
  {
    EntityView(r.entry.locator, r.entry)
  }

  /** The unsorted fuzzy hits, in registry order. */
  function FuzzyHits(reg: seq<Registered>, q: string): (r: seq<Hit>)
    ensures |r| <= |reg|
    ensures forall h :: h in r ==> h.matchType == Fuzzy && 1 <= h.score <= 3
  {
    if reg == [] then []
    else
      var last := reg[|reg| - 1];
      FuzzyHits(reg[..|reg| - 1], q)
      + (if Contains(Searchable(last), q) then [Hit(ViewOf(last), Fuzzy, FuzzyScore(last, q))] else [])
  }

  function HitScore(h: Hit): int
  {
    h.score
  }

  /** Descending order on scores. */
  function ScoreDesc(): (int, int) -> bool
  {
    (a: int, b: int) => a > b
  }

  lemma ScoreDescTotal()
    ensures StrictTotalOrder(ScoreDesc())
  {
  }

  const MaxFuzzyResults: nat := 15

  /** search_registry as a function of the registry and the raw query. */
  function SearchSpec(reg: seq<Registered>, query: string): seq<Hit>
  {
    SearchNormalized(reg, Normalize(query))
  }

  /** The search on an already normalised query `q`. */
  function SearchNormalized(reg: seq<Registered>, q: string): seq<Hit>
  {
    if q == "" then []
    else match Lookup(reg, q)
      case Some(e) => [Hit(EntityView(e.locator, e), Exact, 0)]
      case None =>
        var aliases := GroupAliases(reg);
        if q in aliases then GroupHits(reg, aliases[q])
        else Take(SortBy(FuzzyHits(reg, q), HitScore, ScoreDesc()), MaxFuzzyResults)
  }

  /** `[{"key": k, **DATA_REGISTRY[k], "match_type": "group"} for k in members]`. */
  function GroupHits(reg: seq<Registered>, ids: seq<string>): (r: seq<Hit>)
    ensures |r| <= |ids|
    ensures forall h :: h in r ==> h.matchType == GroupMatch
  {
    if ids == [] then []
    else
      match Lookup(reg, ids[0])
      case Some(e) => [Hit(EntityView(e.locator, e), GroupMatch, 0)] + GroupHits(reg, ids[1..])
      case None => GroupHits(reg, ids[1..])
  }

  lemma FuzzyHitsSnoc(s: seq<Registered>, x: Registered, q: string)
    ensures FuzzyHits(s + [x], q)
         == FuzzyHits(s, q) + (if Contains(Searchable(x), q) then [Hit(ViewOf(x), Fuzzy, FuzzyScore(x, q))] else [])
  {
    assert (s + [x])[..|s|] == s;
  }

  /** One pass of the fuzzy scan: entry `r` is a hit when its searchable text contains `q`. */
  method ScanEntry(hits0: seq<Hit>, s: seq<Registered>, r: Registered, q: string) returns (hits: seq<Hit>)
    requires hits0 == FuzzyHits(s, q)
    ensures hits == FuzzyHits(s + [r], q)
  {
    hits := hits0;
    if Contains(Searchable(r), q) {
      hits := hits + [Hit(ViewOf(r), Fuzzy, FuzzyScore(r, q))];
    }
    FuzzyHitsSnoc(s, r, q);
  }

  /** The fuzzy scan: every entry whose searchable text contains `q`, in registry order. */
  method ScanFuzzy(reg: seq<Registered>, q: string) returns (hits: seq<Hit>)
    ensures hits == FuzzyHits(reg, q)
  {
    hits := [];
    for i := 0 to |reg|
      invariant hits == FuzzyHits(reg[..i], q)
    {
      hits := ScanEntry(hits, reg[..i], reg[i], q);
      assert reg[..i + 1] == reg[..i] + [reg[i]];
    }
    assert reg[..|reg|] == reg;
  }

  /** search_registry: exact name, then group, then the fuzzy scan sorted by descending score and cut at fifteen. */
  method SearchRegistry(reg: seq<Registered>, aliases: map<string, seq<string>>, query: string) returns (results: seq<Hit>)
    requires aliases == GroupAliases(reg)
    ensures results == SearchSpec(reg, query)
  {
    var q := Normalize(query);
    if q == "" {
      return [];
    }
    var exact := Lookup(reg, q);
    if exact.Some? {
      var e := exact.value;
      return [Hit(EntityView(e.locator, e), Exact, 0)];
    }
    if q in aliases {
      results := GroupHits(reg, aliases[q]);
      return;
    }
    results := ScanFuzzy(reg, q);
    results := SortBy(results, HitScore, ScoreDesc());
    results := Take(results, MaxFuzzyResults);
  }

  // ----- properties of search --------------------------------------------

  lemma NormalizeLower(query: string)
    ensures Normalize(Lower(query)) == Normalize(query)
  {
    LowerIdempotent(query);
  }

  /** A query already in lower case, trimmed and without a leading '@' is searched as written. */
  lemma NormalizeCanonical(q: string)
    requires forall i :: 0 <= i < |q| ==> !IsUpper(q[i])
    requires q == [] || (!IsSpace(q[0]) && !IsSpace(q[|q| - 1]) && q[0] != '@')
    ensures Normalize(q) == q
  {
    LowerFixed(q);
    StripTrimmed(q);
  }

  /** Case, surrounding blanks and leading '@'s do not change a search. */
  lemma SearchIgnoresCase(reg: seq<Registered>, query: string)
    ensures SearchSpec(reg, Lower(query)) == SearchSpec(reg, query)
  {
    NormalizeLower(query);
  }

  /** Whatever the lookup finds for the normalised query is the single exact result. */
  lemma SearchFound(reg: seq<Registered>, query: string, e: Entry)
    requires Normalize(query) != "" && Lookup(reg, Normalize(query)) == Some(e)
    ensures SearchSpec(reg, query) == [Hit(EntityView(e.locator, e), Exact, 0)]
  {
  }

  /** An exact name returns that one entry, carrying its locator as "key". */
  lemma SearchExactName(reg: seq<Registered>, query: string, i: nat)
    requires UniqueIds(reg) && i < |reg|
    requires Normalize(query) == reg[i].id && reg[i].id != ""
    ensures SearchSpec(reg, query) == [Hit(EntityView(reg[i].entry.locator, reg[i].entry), Exact, 0)]
  {
    LookupUnique(reg, i);
  }

  /** A group name that is not also an entry name returns every member of the group, uncapped. */
  lemma SearchGroupName(reg: seq<Registered>, query: string)
    requires Normalize(query) != "" && !IsRegistered(reg, Normalize(query)) && HasGroup(reg, Normalize(query))
    ensures SearchSpec(reg, query) == GroupHits(reg, IdsInGroup(reg, Normalize(query)))
    ensures |SearchSpec(reg, query)| == |IdsInGroup(reg, Normalize(query))|
  {
    var q := Normalize(query);
    var ids := IdsInGroup(reg, q);
    forall id | id in ids
      ensures IsRegistered(reg, id)
    {
    }
    GroupHitsAllFound(reg, ids);
  }

  lemma {:induction false} GroupHitsAllFound(reg: seq<Registered>, ids: seq<string>)
    requires forall id :: id in ids ==> IsRegistered(reg, id)
    ensures |GroupHits(reg, ids)| == |ids|
  {
    if ids != [] {
      assert ids[0] in ids;
      assert forall id :: id in ids[1..] ==> id in ids;
      GroupHitsAllFound(reg, ids[1..]);
    }
  }

  /**
   * A fuzzy search returns at most fifteen hits, ordered by descending score
   * with registry order kept among equal scores, each one a real match.
   */
  lemma SearchFuzzyShape(reg: seq<Registered>, q: string)
    requires q != "" && !IsRegistered(reg, q) && !HasGroup(reg, q)
    ensures var r := SearchNormalized(reg, q);
            var all := SortBy(FuzzyHits(reg, q), HitScore, ScoreDesc());
            |r| <= MaxFuzzyResults &&
            r == all[..|r|] &&
            SortedBy(r, HitScore, ScoreDesc()) &&
            multiset(all) == multiset(FuzzyHits(reg, q)) &&
            (forall s :: WithKey(all, HitScore, s) == WithKey(FuzzyHits(reg, q), HitScore, s))
  {
    var all := SortBy(FuzzyHits(reg, q), HitScore, ScoreDesc());
    ScoreDescTotal();
    SortBySorted(FuzzyHits(reg, q), HitScore, ScoreDesc());
    forall s
      ensures WithKey(all, HitScore, s) == WithKey(FuzzyHits(reg, q), HitScore, s)
    {
      SortByStable(FuzzyHits(reg, q), HitScore, ScoreDesc(), s);
    }
  }

  /** Every fuzzy hit is an entry whose searchable text contains the query, scored by FuzzyScore. */
  lemma {:induction false} FuzzyHitsSound(reg: seq<Registered>, q: string, h: Hit)
    requires h in FuzzyHits(reg, q)
    ensures exists i :: 0 <= i < |reg| && Contains(Searchable(reg[i]), q)
                     && h == Hit(ViewOf(reg[i]), Fuzzy, FuzzyScore(reg[i], q))
  {
    var init := reg[..|reg| - 1];
    if h in FuzzyHits(init, q) {
      FuzzyHitsSound(init, q, h);
      var i :| 0 <= i < |init| && Contains(Searchable(init[i]), q) && h == Hit(ViewOf(init[i]), Fuzzy, FuzzyScore(init[i], q));
      assert init[i] == reg[i];
    } else {
      assert h == Hit(ViewOf(reg[|reg| - 1]), Fuzzy, FuzzyScore(reg[|reg| - 1], q));
    }
  }

  /** Every entry whose searchable text contains the query is among the fuzzy hits. */
  lemma {:induction false} FuzzyHitsComplete(reg: seq<Registered>, q: string, i: nat)
    requires i < |reg| && Contains(Searchable(reg[i]), q)
    ensures Hit(ViewOf(reg[i]), Fuzzy, FuzzyScore(reg[i], q)) in FuzzyHits(reg, q)
  {
    if i < |reg| - 1 {
      var init := reg[..|reg| - 1];
      assert init[i] == reg[i];
      FuzzyHitsComplete(init, q, i);
    }
  }

  // ----- resolve_entity / get_group_entities ------------------------------

  /** resolve_entity: a copy of the entry whose "key" is the canonical name asked for. */
  function ResolveEntity(reg: seq<Registered>, id: string): (r: Option<EntityView>)
    ensures r.Some? <==> IsRegistered(reg, id)
    ensures r.Some? ==> r.value.key == id && Lookup(reg, id) == Some(r.value.entry)
  {
    match Lookup(reg, id)
    case Some(e) => Some(EntityView(id, e))
    case None => None
  }

  /** The test of the comprehension in get_group_entities. */
  function InGroup(g: string): Registered -> bool
  {
    (x: Registered) => x.entry.group == g
  }

  /**
   * get_group_entities: the group's entries in registry order, each with its
   * locator as "key" — the view of each registered entity that passes the
   * group test, one for one.
   */
  function GroupEntities(reg: seq<Registered>, g: string): (r: seq<EntityView>)
    ensures |r| == |IdsInGroup(reg, g)|
    ensures forall v :: v in r ==> v.entry.group == g && v.key == v.entry.locator
    ensures |r| == |Where(reg, InGroup(g))| &&
            forall i :: 0 <= i < |r| ==> r[i] == ViewOf(Where(reg, InGroup(g))[i])
  {
    if reg == [] then []
    else
      var last := reg[|reg| - 1];
      GroupEntities(reg[..|reg| - 1], g) + (if last.entry.group == g then [ViewOf(last)] else [])
  }

  /** Resolving a name and searching for it disagree on "key" exactly when the locator differs from the name. */
  lemma ResolveVersusSearchKey(reg: seq<Registered>, i: nat)
    requires UniqueIds(reg) && i < |reg| && reg[i].id != ""
    requires Normalize(reg[i].id) == reg[i].id
    ensures ResolveEntity(reg, reg[i].id).value.key == reg[i].id
    ensures SearchSpec(reg, reg[i].id)[0].view.key == reg[i].entry.locator
  {
    LookupUnique(reg, i);
    SearchExactName(reg, reg[i].id, i);
  }
}
