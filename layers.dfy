/**
 * The technique list and legend of one Navigator layer (`get_layers_dict`):
 * one entry per technique and kill-chain phase of every reported section
 * except revocations and deprecations, coloured by section, and one legend
 * item per section that produced an entry.
 */
module Layers {
  import opened Stix
  import opened Classify

  datatype Entry = Entry(techniqueId: string, tactic: string, enabled: bool, color: string, comment: string)
  /** A legend row: its colour and its `label` text (`label` is a Dafny keyword, hence `text`). */
  datatype LegendItem = LegendItem(color: string, text: string)

  /** The section's key in the result dictionary. */
  function StatusName(c: Category): string
  {
    match c
    case Additions => "additions"
    case Changes => "changes"
    case MinorChanges => "minor_changes"
    case Revocations => "revocations"
    case Deprecations => "deprecations"
    case Deletions => "deletions"
  }

  /** The colour key of the layers. */
  function Color(c: Category): string
  {
    match c
    case Additions => "#a1d99b"
    case Changes => "#fcf3a2"
    case MinorChanges => "#c7c4e0"
    case Deletions => "#ff00e1"
    case Revocations => "#ff9000"
    case Deprecations => "#ff6363"
  }

  function Description(c: Category): string
  {
    match c
    case Additions => "objects which are present in the new data and not the old"
    case Changes => "objects which have a newer version number in the new data compared to the old"
    case MinorChanges => "objects which have a newer last edit date in the new data than in the old, but the same version number"
    case Revocations => "objects which are revoked in the new data but not in the old"
    case Deprecations => "objects which are deprecated in the new data but not in the old"
    case Deletions => "objects which are present in the old data but not the new"
  }

  /** The comment on each entry: the status name without its final letter. */
  function Comment(c: Category): string
  {
    match c
    case Additions => "addition"
    case Changes => "change"
    case MinorChanges => "minor_change"
    case Revocations => "revocation"
    case Deprecations => "deprecation"
    case Deletions => "deletion"
  }

  /** `status[:-1]`: every status name ends in "s", and the comment drops it. */
  lemma CommentDropsLastLetter(c: Category)
    ensures StatusName(c) == Comment(c) + "s"
    ensures Comment(c) == StatusName(c)[..|StatusName(c)| - 1]
  {
  }

  lemma ColorsDistinct(c1: Category, c2: Category)
    requires c1 != c2
    ensures Color(c1) != Color(c2)
  {
    assert Color(c1)[3] != Color(c2)[3];
  }

  /** The order in which `load_data` inserts the sections, hence the order they are iterated in. */
  const StatusOrder: seq<Category> := [Additions, Changes, MinorChanges, Revocations, Deprecations, Deletions]

  /** Revocations and deprecations are skipped. */
  predicate Drawn(c: Category)
  {
    c != Revocations && c != Deprecations
  }

  predicate HasTechniqueId(t: Record)
  {
    |t.externalRefs| > 0 && t.externalRefs[0].externalId.Some?
  }

  /** `technique['external_references'][0]['external_id']` */
  function TechniqueId(t: Record): string
    requires HasTechniqueId(t)
  {
    t.externalRefs[0].externalId.value
  }

  /**
   * The keys the layer builder reads exist: `kill_chain_phases` always, and
   * the first external reference's `external_id` as soon as there is a phase.
   */
  predicate Drawable(t: Record)
  {
    t.killChainPhases.Some? && (|t.killChainPhases.value| > 0 ==> HasTechniqueId(t))
  }

  predicate AllDrawable(ts: seq<Record>)
  {
    forall i | 0 <= i < |ts| :: Drawable(ts[i])
  }

  predicate DrawableSections(sec: Sections)
  {
    forall c | c in sec && Drawn(c) :: AllDrawable(sec[c])
  }

  function PhaseEntry(c: Category, t: Record, phase: string): Entry
    requires HasTechniqueId(t)
  {
    Entry(TechniqueId(t), phase, true, Color(c), Comment(c))
  }

  /** The entries of the first `n` kill-chain phases of `t`, in order. */
  function PhaseEntries(c: Category, t: Record, n: nat): seq<Entry>
    requires Drawable(t) && n <= |t.killChainPhases.value|
  {
    if n == 0 then []
    else PhaseEntries(c, t, n - 1) + [PhaseEntry(c, t, t.killChainPhases.value[n - 1])]
  }

  /** One entry per kill-chain phase of `t`. */
  function TechniqueEntries(c: Category, t: Record): seq<Entry>
    requires Drawable(t)
  {
    PhaseEntries(c, t, |t.killChainPhases.value|)
  }

  /** The entries of the first `n` techniques of a section's list. */
  function ListEntries(c: Category, ts: seq<Record>, n: nat): seq<Entry>
    requires AllDrawable(ts) && n <= |ts|
  {
    if n == 0 then []
    else ListEntries(c, ts, n - 1) + TechniqueEntries(c, ts[n - 1])
  }

  /** The entries of section `c`; none for absent and skipped sections. */
  function StatusBlock(c: Category, sec: Sections): seq<Entry>
    requires DrawableSections(sec)
  {
    if c in sec && Drawn(c) then ListEntries(c, sec[c], |sec[c]|) else []
  }

  /** The entries of the first `n` sections in insertion order. */
  function LayerEntries(sec: Sections, n: nat): seq<Entry>
    requires DrawableSections(sec) && n <= |StatusOrder|
  {
    if n == 0 then []
    else LayerEntries(sec, n - 1) + StatusBlock(StatusOrder[n - 1], sec)
  }

  /** The layer's `techniques` list. */
  function Techniques(sec: Sections): seq<Entry>
    requires DrawableSections(sec)
  {
    LayerEntries(sec, |StatusOrder|)
  }

  /** The sections that contributed at least one entry. */
  function UsedStatuses(sec: Sections): set<Category>
    requires DrawableSections(sec)
  {
    set c | c in sec && Drawn(c) && StatusBlock(c, sec) != []
  }

  /** Those of them among the first `n` sections in insertion order. */
  function UsedAmong(sec: Sections, n: nat): set<Category>
    requires DrawableSections(sec) && n <= |StatusOrder|
  {
    set i | 0 <= i < n && StatusBlock(StatusOrder[i], sec) != [] :: StatusOrder[i]
  }

  function LegendOf(c: Category): LegendItem
  {
    LegendItem(Color(c), StatusName(c) + ": " + Description(c))
  }

  /** The nested loops that build `techniques` and `used_statuses`. */
  method BuildTechniques(sec: Sections) returns (techniques: seq<Entry>, used: set<Category>)
    requires DrawableSections(sec)
    ensures techniques == Techniques(sec)
    ensures used == UsedStatuses(sec)
  {
    techniques := [];
    used := {};
    for s := 0 to |StatusOrder|
      invariant techniques == LayerEntries(sec, s)
      invariant used == UsedAmong(sec, s)
    {
      var status := StatusOrder[s];
      if status in sec && status != Revocations && status != Deprecations {
        techniques, used := AddStatusEntries(techniques, used, status, sec[status]);
      }
      UsedAmongStep(sec, s);
    }
    UsedAmongAll(sec);
  }

  /** The loop over one section's techniques. */
  method AddStatusEntries(techniques: seq<Entry>, used: set<Category>, status: Category, list: seq<Record>)
    returns (techniques': seq<Entry>, used': set<Category>)
    requires AllDrawable(list)
    ensures techniques' == techniques + ListEntries(status, list, |list|)
    ensures used' == used + (if ListEntries(status, list, |list|) != [] then {status} else {})
  {
    techniques', used' := techniques, used;
    for t := 0 to |list|
      invariant techniques' == techniques + ListEntries(status, list, t)
      invariant used' == used + (if |techniques'| > |techniques| then {status} else {})
    {
      ghost var sofar := ListEntries(status, list, t);
      ghost var block := TechniqueEntries(status, list[t]);
      techniques', used' := AddTechniqueEntries(techniques', used', status, list[t]);
      assert techniques' == techniques + (sofar + block);
    }
  }

  /** The innermost loop: one entry per kill-chain phase of `technique`. */
  method AddTechniqueEntries(techniques: seq<Entry>, used: set<Category>, status: Category, technique: Record)
    returns (techniques': seq<Entry>, used': set<Category>)
    requires Drawable(technique)
    ensures techniques' == techniques + TechniqueEntries(status, technique)
    ensures used' == used + (if TechniqueEntries(status, technique) != [] then {status} else {})
  {
    techniques', used' := techniques, used;
    var phases := technique.killChainPhases.value;
    for p := 0 to |phases|
      invariant techniques' == techniques + PhaseEntries(status, technique, p)
      invariant used' == used + (if p > 0 then {status} else {})
    {
      techniques' := techniques' + [PhaseEntry(status, technique, phases[p])];
      used' := used' + {status};
    }
    PhaseEntriesLength(status, technique, |phases|);
  }

  lemma UsedAmongStep(sec: Sections, n: nat)
    requires DrawableSections(sec)
    requires n < |StatusOrder|
    ensures UsedAmong(sec, n + 1) ==
      UsedAmong(sec, n) + (if StatusBlock(StatusOrder[n], sec) != [] then {StatusOrder[n]} else {})
  {
  }

  lemma UsedAmongAll(sec: Sections)
    requires DrawableSections(sec)
    ensures UsedAmong(sec, |StatusOrder|) == UsedStatuses(sec)
  {
    forall c | c in UsedStatuses(sec)
      ensures c in UsedAmong(sec, |StatusOrder|)
    {
      var i := StatusIndex(c);
      assert StatusOrder[i] == c;
    }
  }

  /** The position of a section in insertion order. */
  function StatusIndex(c: Category): (i: nat)
    ensures i < |StatusOrder| && StatusOrder[i] == c
  {
    match c
    case Additions => 0
    case Changes => 1
    case MinorChanges => 2
    case Revocations => 3
    case Deprecations => 4
    case Deletions => 5
  }

  /** `list(map(..., used_statuses))`: one legend item per used status, in unspecified order. */
  method BuildLegend(used: set<Category>) returns (items: seq<LegendItem>)
    ensures (set i | 0 <= i < |items| :: items[i]) == (set c | c in used :: LegendOf(c))
    ensures forall i, j | 0 <= i < j < |items| :: items[i] != items[j]
  {
    items := [];
    ghost var shown: seq<Category> := [];
    var rest := used;
    while rest != {}
      invariant rest <= used
      invariant |shown| == |items|
      invariant forall i | 0 <= i < |items| :: shown[i] in used - rest && items[i] == LegendOf(shown[i])
      invariant forall c | c in used - rest :: LegendOf(c) in items
      invariant forall i, j | 0 <= i < j < |items| :: items[i] != items[j]
      decreases rest
    {
      var c :| c in rest;
      forall i | 0 <= i < |items|
        ensures items[i] != LegendOf(c)
      {
        ColorsDistinct(c, shown[i]);
      }
      items := items + [LegendOf(c)];
      shown := shown + [c];
      rest := rest - {c};
    }
    assert used - rest == used;
    forall c | c in used
      ensures LegendOf(c) in (set i | 0 <= i < |items| :: items[i])
    {
      var i :| 0 <= i < |items| && items[i] == LegendOf(c);
    }
  }

  // ---------------------------------------------------------------------
  // Properties of the technique list

  /** The number of kill-chain phases of the first `n` techniques. */
  function PhaseTotal(ts: seq<Record>, n: nat): nat
    requires AllDrawable(ts) && n <= |ts|
  {
    if n == 0 then 0
    else PhaseTotal(ts, n - 1) + |ts[n - 1].killChainPhases.value|
  }

  lemma {:induction false} PhaseEntriesLength(c: Category, t: Record, n: nat)
    requires Drawable(t) && n <= |t.killChainPhases.value|
    ensures |PhaseEntries(c, t, n)| == n
  {
    if n > 0 {
      PhaseEntriesLength(c, t, n - 1);
    }
  }

  lemma {:induction false} PhaseEntriesAt(c: Category, t: Record, n: nat, p: nat)
    requires Drawable(t) && n <= |t.killChainPhases.value|
    requires p < n
    ensures |PhaseEntries(c, t, n)| == n
    ensures PhaseEntries(c, t, n)[p] == PhaseEntry(c, t, t.killChainPhases.value[p])
  {
    PhaseEntriesLength(c, t, n - 1);
    if p < n - 1 {
      PhaseEntriesAt(c, t, n - 1, p);
    }
  }

  /** A section holds exactly as many entries as its techniques have phases. */
  lemma {:induction false} ListEntriesCount(c: Category, ts: seq<Record>, n: nat)
    requires AllDrawable(ts) && n <= |ts|
    ensures |ListEntries(c, ts, n)| == PhaseTotal(ts, n)
  {
    if n > 0 {
      ListEntriesCount(c, ts, n - 1);
      PhaseEntriesLength(c, ts[n - 1], |ts[n - 1].killChainPhases.value|);
    }
  }

  /**
   * Technique `i`'s phase `p` yields the entry at position
   * `PhaseTotal(ts, i) + p`: with the count above, exactly one entry per
   * (technique, phase) pair, in order.
   */
  lemma {:induction false} ListEntryAt(c: Category, ts: seq<Record>, n: nat, i: nat, p: nat)
    requires AllDrawable(ts) && n <= |ts|
    requires i < n && p < |ts[i].killChainPhases.value|
    ensures PhaseTotal(ts, i) + p < |ListEntries(c, ts, n)|
    ensures ListEntries(c, ts, n)[PhaseTotal(ts, i) + p] == PhaseEntry(c, ts[i], ts[i].killChainPhases.value[p])
  {
    var prefix := ListEntries(c, ts, n - 1);
    assert ListEntries(c, ts, n) == prefix + TechniqueEntries(c, ts[n - 1]);
    if i == n - 1 {
      ListEntriesCount(c, ts, n - 1);
      PhaseEntriesAt(c, ts[i], |ts[i].killChainPhases.value|, p);
    } else {
      ListEntryAt(c, ts, n - 1, i, p);
    }
  }

  /** Every entry of a section carries that section's colour and comment, enabled. */
  lemma {:induction false} ListEntriesColoured(c: Category, ts: seq<Record>, n: nat, k: nat)
    requires AllDrawable(ts) && n <= |ts|
    requires k < |ListEntries(c, ts, n)|
    ensures ListEntries(c, ts, n)[k].color == Color(c)
    ensures ListEntries(c, ts, n)[k].comment == Comment(c)
    ensures ListEntries(c, ts, n)[k].enabled
  {
    var m := |ListEntries(c, ts, n - 1)|;
    var t := ts[n - 1];
    PhaseEntriesLength(c, t, |t.killChainPhases.value|);
    if k < m {
      ListEntriesColoured(c, ts, n - 1, k);
    } else {
      PhaseEntriesAt(c, t, |t.killChainPhases.value|, k - m);
    }
  }

  /** An entry of the layer comes from a drawn section present in the result, and has its colour. */
  lemma {:induction false} LayerEntryFrom(sec: Sections, n: nat, k: nat)
    requires DrawableSections(sec) && n <= |StatusOrder|
    requires k < |LayerEntries(sec, n)|
    ensures exists i | 0 <= i < n ::
      && StatusOrder[i] in sec && Drawn(StatusOrder[i]) && StatusBlock(StatusOrder[i], sec) != []
      && LayerEntries(sec, n)[k].color == Color(StatusOrder[i])
  {
    var m := |LayerEntries(sec, n - 1)|;
    if k < m {
      LayerEntryFrom(sec, n - 1, k);
    } else {
      var c := StatusOrder[n - 1];
      ListEntriesColoured(c, sec[c], |sec[c]|, k - m);
    }
  }

  /** Each entry of a section in the first `n` appears in the layer. */
  lemma {:induction false} LayerHasBlock(sec: Sections, n: nat, i: nat, k: nat)
    requires DrawableSections(sec) && n <= |StatusOrder|
    requires i < n && k < |StatusBlock(StatusOrder[i], sec)|
    ensures StatusBlock(StatusOrder[i], sec)[k] in LayerEntries(sec, n)
  {
    if i < n - 1 {
      LayerHasBlock(sec, n - 1, i, k);
    }
  }

  /** No entry is coloured as a revocation or a deprecation. */
  lemma NoRevokedOrDeprecatedEntries(sec: Sections, k: nat)
    requires DrawableSections(sec)
    requires k < |Techniques(sec)|
    ensures Techniques(sec)[k].color != Color(Revocations)
    ensures Techniques(sec)[k].color != Color(Deprecations)
  {
    LayerEntryFrom(sec, |StatusOrder|, k);
    var i :| 0 <= i < |StatusOrder| && StatusOrder[i] in sec && Drawn(StatusOrder[i])
      && Techniques(sec)[k].color == Color(StatusOrder[i]);
    ColorsDistinct(StatusOrder[i], Revocations);
    ColorsDistinct(StatusOrder[i], Deprecations);
  }

  /** A status is used exactly when some entry of the layer carries its colour. */
  lemma UsedIffColoured(sec: Sections, c: Category)
    requires DrawableSections(sec)
    ensures c in UsedStatuses(sec) <==>
      exists k | 0 <= k < |Techniques(sec)| :: Techniques(sec)[k].color == Color(c)
  {
    var entries := Techniques(sec);
    if c in UsedStatuses(sec) {
      var i := StatusIndex(c);
      LayerHasBlock(sec, |StatusOrder|, i, 0);
      ListEntriesColoured(c, sec[c], |sec[c]|, 0);
      var k :| 0 <= k < |entries| && entries[k] == StatusBlock(c, sec)[0];
    }
    if exists k | 0 <= k < |entries| :: entries[k].color == Color(c) {
      var k :| 0 <= k < |entries| && entries[k].color == Color(c);
      LayerEntryFrom(sec, |StatusOrder|, k);
      var i :| 0 <= i < |StatusOrder| && StatusOrder[i] in sec && Drawn(StatusOrder[i])
        && StatusBlock(StatusOrder[i], sec) != [] && entries[k].color == Color(StatusOrder[i]);
      if StatusOrder[i] != c {
        ColorsDistinct(StatusOrder[i], c);
      }
    }
  }
}
