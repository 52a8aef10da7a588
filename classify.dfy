/**
 * The change classification of `DiffStix.load_data`: the set algebra on the
 * two snapshots' keys, the per-key precedence of revocation, deprecation,
 * version and modification date, and the loop that sorts the common keys
 * into the four sets.
 */
module Classify {
  import opened Wrappers
  import opened Stix

  datatype Side = Old | New

  /** What the if/elif/else does with one key present in both snapshots. */
  datatype Verdict =
    | Revoked                                  // newly revoked
    | Deprecated                               // newly deprecated
    | Changed                                  // version increased
    | MinorChanged                             // same or lower version, later date
    | Unchanged
    | VersionMissing(onOld: bool, onNew: bool) // a version did not parse: skipped
    | ModifiedMissing(side: Side)              // a `modified` key is absent: the run fails

  /** `"k" in obj and obj["k"]` for a boolean key. */
  predicate IsTrue(flag: Option<bool>)
  {
    flag == Some(true)
  }

  /** The per-key decision procedure, branch for branch. */
  function Decide(o: Record, n: Record): (v: Verdict)
    ensures v == Revoked ==> IsTrue(n.revoked) && !IsTrue(o.revoked)
    ensures v == Deprecated ==> !IsTrue(n.revoked) && IsTrue(n.deprecated) && o.deprecated.None?
    ensures v == Changed ==>
      && !IsTrue(n.revoked) && !IsTrue(n.deprecated)
      && o.version.Some? && n.version.Some? && n.version.value > o.version.value
    ensures v == MinorChanged ==>
      && !IsTrue(n.revoked) && !IsTrue(n.deprecated)
      && o.version.Some? && n.version.Some? && n.version.value <= o.version.value
      && o.modified.Some? && n.modified.Some? && n.modified.value > o.modified.value
    ensures v.ModifiedMissing? ==> !IsTrue(n.revoked) && !IsTrue(n.deprecated)
  {
    if IsTrue(n.revoked) then
      (if !IsTrue(o.revoked) then Revoked else Unchanged)
    else if IsTrue(n.deprecated) then
      (if o.deprecated.None? then Deprecated else Unchanged)
    else if o.version.None? || n.version.None? then
      VersionMissing(o.version.None?, n.version.None?)
    else if n.version.value > o.version.value then
      Changed
    else if o.modified.None? then
      ModifiedMissing(Old)
    else if n.modified.None? then
      ModifiedMissing(New)
    else if n.modified.value > o.modified.value then
      MinorChanged
    else
      Unchanged
  }

  /** The six sections of a result, in the order the result dictionary is filled. */
  datatype Category = Additions | Changes | MinorChanges | Revocations | Deprecations | Deletions

  function CategoryOf(v: Verdict): Option<Category>
  {
    match v
    case Revoked => Some(Revocations)
    case Deprecated => Some(Deprecations)
    case Changed => Some(Changes)
    case MinorChanged => Some(MinorChanges)
    case _ => None
  }

  /** Why a run stops: the exceptions the loop can raise. */
  datatype Fault =
    | MissingModified(key: Id, side: Side)       // KeyError on `modified`
    | NoRevokingRelationship(key: Id)            // IndexError on `query(...)[0]`
    | RevokerNotLoaded(key: Id, target: Id)      // KeyError on `id_to_obj[revoked_by_key]`

  const RevokedByType: string := "revoked-by"

  /** The relationship query's filter: a `revoked-by` relationship out of `key`. */
  predicate RevokesFrom(r: Relationship, key: Id)
  {
    r.relationshipType == RevokedByType && r.sourceRef == key
  }

  /** Position of the first match of the query in store order, `|rels|` if none. */
  function FirstRevoking(rels: seq<Relationship>, key: Id): (i: nat)
    ensures i <= |rels|
    ensures forall j | 0 <= j < i :: !RevokesFrom(rels[j], key)
    ensures i < |rels| ==> RevokesFrom(rels[i], key)
  {
    if rels == [] then 0
    else if RevokesFrom(rels[0], key) then 0
    else 1 + FirstRevoking(rels[1..], key)
  }

  /** `query(...)[0]["target_ref"]`, None where indexing the empty result fails. */
  function RevokerOf(rels: seq<Relationship>, key: Id): (target: Option<Id>)
    ensures target.None? <==> forall i | 0 <= i < |rels| :: !RevokesFrom(rels[i], key)
    ensures target.Some? ==> exists i | 0 <= i < |rels| ::
      && RevokesFrom(rels[i], key) && rels[i].targetRef == target.value
      && forall j | 0 <= j < i :: !RevokesFrom(rels[j], key)
  {
    var i := FirstRevoking(rels, key);
    if i < |rels| then Some(rels[i].targetRef) else None
  }

  /** The exception, if any, that the loop raises at `key`. */
  function FaultAt(key: Id, o: Record, n: Record, newSnap: Snapshot, rels: seq<Relationship>): Option<Fault>
  {
    match Decide(o, n)
    case ModifiedMissing(side) => Some(MissingModified(key, side))
    case Revoked => RevocationFault(key, newSnap, rels)
    case _ => None
  }

  /** The exception raised while looking up the revoking object of `key`. */
  function RevocationFault(key: Id, newSnap: Snapshot, rels: seq<Relationship>): Option<Fault>
  {
    match RevokerOf(rels, key)
    case None => Some(NoRevokingRelationship(key))
    case Some(t) => if t in newSnap then None else Some(RevokerNotLoaded(key, t))
  }

  /** No key of the intersection makes the loop raise. */
  predicate NoFault(oldSnap: Snapshot, newSnap: Snapshot, rels: seq<Relationship>)
  {
    forall k | k in oldSnap && k in newSnap :: FaultAt(k, oldSnap[k], newSnap[k], newSnap, rels).None?
  }

  /** The id sets of one comparison; `skipped` holds the keys whose version did not parse. */
  datatype Diff = Diff(
    additions: set<Id>,
    deletions: set<Id>,
    changes: set<Id>,
    minorChanges: set<Id>,
    revocations: set<Id>,
    deprecations: set<Id>,
    skipped: set<Id>)
  {
    function Section(c: Category): set<Id>
    {
      match c
      case Additions => additions
      case Deletions => deletions
      case Changes => changes
      case MinorChanges => minorChanges
      case Revocations => revocations
      case Deprecations => deprecations
    }
  }

  /** The keys among `keys`, present in both snapshots, that the decision puts into `c`. */
  function Bucket(keys: set<Id>, oldSnap: Snapshot, newSnap: Snapshot, c: Category): set<Id>
  {
    set k | k in keys && k in oldSnap && k in newSnap && CategoryOf(Decide(oldSnap[k], newSnap[k])) == Some(c)
  }

  function SkippedAmong(keys: set<Id>, oldSnap: Snapshot, newSnap: Snapshot): set<Id>
  {
    set k | k in keys && k in oldSnap && k in newSnap && Decide(oldSnap[k], newSnap[k]).VersionMissing?
  }

  lemma RevokerStep(newSnap: Snapshot, revoked: set<Id>, key: Id, rels: seq<Relationship>)
    requires key in newSnap && key !in revoked
    ensures WithRevokers(newSnap, revoked + {key}, rels) ==
      WithRevokers(newSnap, revoked, rels)[key := newSnap[key].(revokedBy := RevokerOf(rels, key))]
  {
  }

  /** Classifying one more key adds it to at most the set its verdict names. */
  lemma BucketStep(done: set<Id>, key: Id, oldSnap: Snapshot, newSnap: Snapshot)
    requires key in oldSnap && key in newSnap
    ensures Bucket(done + {key}, oldSnap, newSnap, Changes) ==
      Bucket(done, oldSnap, newSnap, Changes) + (if Decide(oldSnap[key], newSnap[key]).Changed? then {key} else {})
    ensures Bucket(done + {key}, oldSnap, newSnap, MinorChanges) ==
      Bucket(done, oldSnap, newSnap, MinorChanges) + (if Decide(oldSnap[key], newSnap[key]).MinorChanged? then {key} else {})
    ensures Bucket(done + {key}, oldSnap, newSnap, Revocations) ==
      Bucket(done, oldSnap, newSnap, Revocations) + (if Decide(oldSnap[key], newSnap[key]).Revoked? then {key} else {})
    ensures Bucket(done + {key}, oldSnap, newSnap, Deprecations) ==
      Bucket(done, oldSnap, newSnap, Deprecations) + (if Decide(oldSnap[key], newSnap[key]).Deprecated? then {key} else {})
    ensures SkippedAmong(done + {key}, oldSnap, newSnap) ==
      SkippedAmong(done, oldSnap, newSnap) + (if Decide(oldSnap[key], newSnap[key]).VersionMissing? then {key} else {})
  {
  }

  /** The diff once the keys `done` of the intersection have been classified. */
  function DiffAmong(done: set<Id>, oldSnap: Snapshot, newSnap: Snapshot): Diff
  {
    Diff(
      newSnap.Keys - oldSnap.Keys,
      oldSnap.Keys - newSnap.Keys,
      Bucket(done, oldSnap, newSnap, Changes),
      Bucket(done, oldSnap, newSnap, MinorChanges),
      Bucket(done, oldSnap, newSnap, Revocations),
      Bucket(done, oldSnap, newSnap, Deprecations),
      SkippedAmong(done, oldSnap, newSnap))
  }

  /** The diff the source computes, stated on the whole key sets at once. */
  function DiffOf(oldSnap: Snapshot, newSnap: Snapshot): Diff
  {
    DiffAmong(oldSnap.Keys * newSnap.Keys, oldSnap, newSnap)
  }

  /** The new snapshot after the loop: each revoked key's record gains `revoked_by`. */
  function WithRevokers(newSnap: Snapshot, revoked: set<Id>, rels: seq<Relationship>): (r: Snapshot)
    ensures r.Keys == newSnap.Keys
    ensures forall k | k in r :: r[k].revokedBy == (if k in revoked then RevokerOf(rels, k) else newSnap[k].revokedBy)
    ensures forall k | k in r :: r[k].(revokedBy := newSnap[k].revokedBy) == newSnap[k]
    ensures WellKeyed(newSnap) ==> WellKeyed(r)
  {
    map k | k in newSnap :: if k in revoked then newSnap[k].(revokedBy := RevokerOf(rels, k)) else newSnap[k]
  }

  /**
   * Stores the revoking object on the revoked record: the target of the first
   * `revoked-by` relationship out of `key`, which must be loaded in the new map.
   */
  method AttachRevoker(newSnap: Snapshot, newOut: Snapshot, revoked: set<Id>, key: Id, rels: seq<Relationship>)
    returns (out: Snapshot, fault: Option<Fault>)
    requires key in newSnap && key !in revoked
    requires newOut == WithRevokers(newSnap, revoked, rels)
    ensures fault == RevocationFault(key, newSnap, rels)
    ensures fault.None? ==> out == WithRevokers(newSnap, revoked + {key}, rels)
  {
    out := newOut;
    var target := RevokerOf(rels, key);
    if target.None? {
      fault := Some(NoRevokingRelationship(key));
      return;
    }
    if target.value !in newOut {
      fault := Some(RevokerNotLoaded(key, target.value));
      return;
    }
    RevokerStep(newSnap, revoked, key, rels);
    out := newOut[key := newOut[key].(revokedBy := target)];
    fault := None;
  }

  /**
   * One turn of the loop: the verdict on `key` adds it to at most one set and,
   * for a revocation, attaches the revoking object to the new record.
   */
  method ClassifyKey(oldSnap: Snapshot, newSnap: Snapshot, rels: seq<Relationship>,
                     ghost done: set<Id>, key: Id, diff: Diff, newOut: Snapshot)
    returns (diff': Diff, newOut': Snapshot, fault: Option<Fault>)
    requires key in oldSnap && key in newSnap && key !in done
    requires diff == DiffAmong(done, oldSnap, newSnap)
    requires newOut == WithRevokers(newSnap, diff.revocations, rels)
    ensures fault == FaultAt(key, oldSnap[key], newSnap[key], newSnap, rels)
    ensures fault.None? ==> diff' == DiffAmong(done + {key}, oldSnap, newSnap)
    ensures fault.None? ==> newOut' == WithRevokers(newSnap, diff'.revocations, rels)
  {
    diff', newOut', fault := diff, newOut, None;
    BucketStep(done, key, oldSnap, newSnap);
    var o, n := oldSnap[key], newOut[key];
    match Decide(o, n) {
    case Revoked =>
      newOut', fault := AttachRevoker(newSnap, newOut, diff.revocations, key, rels);
      diff' := diff.(revocations := diff.revocations + {key});
    case Deprecated =>
      diff' := diff.(deprecations := diff.deprecations + {key});
    case Changed =>
      diff' := diff.(changes := diff.changes + {key});
    case MinorChanged =>
      diff' := diff.(minorChanges := diff.minorChanges + {key});
    case VersionMissing(_, _) =>
      diff' := diff.(skipped := diff.skipped + {key});
    case ModifiedMissing(side) =>
      fault := Some(MissingModified(key, side));
    case Unchanged =>
    }
  }

  /**
   * The loop over the intersection. It stops at the first key that raises;
   * otherwise it yields the diff and the new snapshot with `revoked_by` set.
   * Keys are taken in an unspecified order, like Python's set iteration.
   */
  method ClassifyCommon(oldSnap: Snapshot, newSnap: Snapshot, rels: seq<Relationship>)
    returns (diff: Diff, newOut: Snapshot, fault: Option<Fault>)
    ensures fault.None? <==> NoFault(oldSnap, newSnap, rels)
    ensures fault.Some? ==>
      exists k | k in oldSnap && k in newSnap :: FaultAt(k, oldSnap[k], newSnap[k], newSnap, rels) == fault
    ensures fault.None? ==> diff == DiffOf(oldSnap, newSnap)
    ensures fault.None? ==> newOut == WithRevokers(newSnap, diff.revocations, rels)
  {
    var common := oldSnap.Keys * newSnap.Keys;
    diff := Diff(newSnap.Keys - oldSnap.Keys, oldSnap.Keys - newSnap.Keys, {}, {}, {}, {}, {});
    newOut := newSnap;
    fault := None;
    var remaining := common;
    while remaining != {}
      invariant remaining <= common
      invariant fault.None?
      invariant diff == DiffAmong(common - remaining, oldSnap, newSnap)
      invariant forall k | k in common - remaining :: FaultAt(k, oldSnap[k], newSnap[k], newSnap, rels).None?
      invariant newOut == WithRevokers(newSnap, diff.revocations, rels)
      decreases remaining
    {
      var key :| key in remaining;
      ghost var done := common - remaining;
      diff, newOut, fault := ClassifyKey(oldSnap, newSnap, rels, done, key, diff, newOut);
      if fault.Some? {
        assert !FaultAt(key, oldSnap[key], newSnap[key], newSnap, rels).None?;
        return;
      }
      remaining := remaining - {key};
      assert common - remaining == done + {key};
    }
    assert common - remaining == common;
  }

  /** The record list of one section: each record of `keys`, drawn from `m`, once. */
  predicate Enumerates(xs: seq<Record>, keys: set<Id>, m: Snapshot)
  {
    && (set i | 0 <= i < |xs| :: xs[i].id) == keys
    && (forall i | 0 <= i < |xs| :: xs[i].id in m && m[xs[i].id] == xs[i])
    && (forall i, j | 0 <= i < j < |xs| :: xs[i].id != xs[j].id)
  }

  /** `[m[key] for key in keys]`, in the set's unspecified order. */
  method ListRecords(keys: set<Id>, m: Snapshot) returns (xs: seq<Record>)
    requires WellKeyed(m)
    requires keys <= m.Keys
    ensures Enumerates(xs, keys, m)
  {
    xs := [];
    var rest := keys;
    while rest != {}
      invariant rest <= keys
      invariant (set i | 0 <= i < |xs| :: xs[i].id) == keys - rest
      invariant forall i | 0 <= i < |xs| :: xs[i].id in m && m[xs[i].id] == xs[i]
      invariant forall i, j | 0 <= i < j < |xs| :: xs[i].id != xs[j].id
      decreases rest
    {
      var k :| k in rest;
      ghost var before := xs;
      xs := xs + [m[k]];
      assert xs[|before|].id == k;
      assert forall i | 0 <= i < |before| :: xs[i] == before[i];
      assert (set i | 0 <= i < |xs| :: xs[i].id) == (set i | 0 <= i < |before| :: before[i].id) + {k};
      rest := rest - {k};
    }
  }

  /** One `self.data[obj_type][domain]` dictionary. */
  type Sections = map<Category, seq<Record>>

  /**
   * What the result dictionary holds: additions, changes, revocations and
   * deprecations always; minor changes only when asked for; deletions only
   * when there are some. Deletions come from the old snapshot, the rest from
   * the new one.
   */
  predicate Reports(sec: Sections, oldSnap: Snapshot, newOut: Snapshot, d: Diff, minor: bool)
  {
    && Additions in sec && Enumerates(sec[Additions], d.additions, newOut)
    && Changes in sec && Enumerates(sec[Changes], d.changes, newOut)
    && (MinorChanges in sec <==> minor)
    && (MinorChanges in sec ==> Enumerates(sec[MinorChanges], d.minorChanges, newOut))
    && Revocations in sec && Enumerates(sec[Revocations], d.revocations, newOut)
    && Deprecations in sec && Enumerates(sec[Deprecations], d.deprecations, newOut)
    && (Deletions in sec <==> d.deletions != {})
    && (Deletions in sec ==> Enumerates(sec[Deletions], d.deletions, oldSnap))
  }

  /** Filling the result dictionary step by step. */
  method Assemble(oldSnap: Snapshot, newOut: Snapshot, d: Diff, minor: bool) returns (sec: Sections)
    requires WellKeyed(oldSnap) && WellKeyed(newOut)
    requires d.additions + d.changes + d.minorChanges + d.revocations + d.deprecations <= newOut.Keys
    requires d.deletions <= oldSnap.Keys
    ensures Reports(sec, oldSnap, newOut, d, minor)
  {
    var additions := ListRecords(d.additions, newOut);
    var changes := ListRecords(d.changes, newOut);
    sec := map[Additions := additions, Changes := changes];
    if minor {
      var minorChanges := ListRecords(d.minorChanges, newOut);
      sec := sec[MinorChanges := minorChanges];
    }
    var revocations := ListRecords(d.revocations, newOut);
    sec := sec[Revocations := revocations];
    var deprecations := ListRecords(d.deprecations, newOut);
    sec := sec[Deprecations := deprecations];
    if |d.deletions| > 0 {
      var deletions := ListRecords(d.deletions, oldSnap);
      sec := sec[Deletions := deletions];
    }
  }

  /** Classification followed by assembly: one (type, domain) pair of `load_data`. */
  method CompareSnapshots(oldSnap: Snapshot, newSnap: Snapshot, rels: seq<Relationship>, minor: bool)
    returns (sec: Sections, fault: Option<Fault>)
    requires WellKeyed(oldSnap) && WellKeyed(newSnap)
    ensures fault.None? <==> NoFault(oldSnap, newSnap, rels)
    ensures fault.Some? ==>
      exists k | k in oldSnap && k in newSnap :: FaultAt(k, oldSnap[k], newSnap[k], newSnap, rels) == fault
    ensures fault.None? ==> Compared(sec, oldSnap, newSnap, rels, minor)
  {
    var diff, newOut;
    diff, newOut, fault := ClassifyCommon(oldSnap, newSnap, rels);
    sec := map[];
    if fault.None? {
      DiffWithinKeys(oldSnap, newSnap);
      sec := Assemble(oldSnap, newOut, diff, minor);
    }
  }

  /** The result dictionary of a comparison that did not raise. */
  predicate Compared(sec: Sections, oldSnap: Snapshot, newSnap: Snapshot, rels: seq<Relationship>, minor: bool)
  {
    var d := DiffOf(oldSnap, newSnap);
    Reports(sec, oldSnap, WithRevokers(newSnap, d.revocations, rels), d, minor)
  }

  // ---------------------------------------------------------------------
  // Properties of the classification

  /** Additions and deletions are the set differences; the other sets lie in the intersection. */
  lemma DiffWithinKeys(oldSnap: Snapshot, newSnap: Snapshot)
    ensures var d := DiffOf(oldSnap, newSnap);
      && d.additions == newSnap.Keys - oldSnap.Keys
      && d.deletions == oldSnap.Keys - newSnap.Keys
      && d.changes <= oldSnap.Keys * newSnap.Keys
      && d.minorChanges <= oldSnap.Keys * newSnap.Keys
      && d.revocations <= oldSnap.Keys * newSnap.Keys
      && d.deprecations <= oldSnap.Keys * newSnap.Keys
      && d.skipped <= oldSnap.Keys * newSnap.Keys
  {
  }

  /** No key lies in two sections, nor in a section and among the skipped keys. */
  lemma {:induction false} SectionsDisjoint(oldSnap: Snapshot, newSnap: Snapshot, c1: Category, c2: Category)
    requires c1 != c2
    ensures DiffOf(oldSnap, newSnap).Section(c1) !! DiffOf(oldSnap, newSnap).Section(c2)
    ensures DiffOf(oldSnap, newSnap).Section(c1) !! DiffOf(oldSnap, newSnap).skipped
  {
    var d := DiffOf(oldSnap, newSnap);
    var common := oldSnap.Keys * newSnap.Keys;
    forall k | k in d.Section(c1)
      ensures k !in d.Section(c2) && k !in d.skipped
    {
      if c1 == Additions || c1 == Deletions {
        assert k !in common;
      } else {
        assert k in Bucket(common, oldSnap, newSnap, c1);
        assert CategoryOf(Decide(oldSnap[k], newSnap[k])) == Some(c1);
      }
    }
  }

  /**
   * Every key of either snapshot is in exactly one of: a section, the
   * skipped keys, or none of them, and the last happens only for keys in
   * both snapshots that the decision leaves unchanged or that raise.
   */
  lemma {:induction false} EveryKeyPlaced(oldSnap: Snapshot, newSnap: Snapshot, k: Id)
    requires k in oldSnap || k in newSnap
    ensures var d := DiffOf(oldSnap, newSnap);
      ((exists c :: k in d.Section(c)) || k in d.skipped ||
        (k in oldSnap && k in newSnap &&
          (Decide(oldSnap[k], newSnap[k]) == Unchanged || Decide(oldSnap[k], newSnap[k]).ModifiedMissing?)))
  {
    var d := DiffOf(oldSnap, newSnap);
    if k !in oldSnap {
      assert k in d.Section(Additions);
    } else if k !in newSnap {
      assert k in d.Section(Deletions);
    } else {
      var v := Decide(oldSnap[k], newSnap[k]);
      match CategoryOf(v)
      case Some(c) =>
        assert k in d.Section(c);
      case None =>
    }
  }

  /** A key newly revoked goes to revocations whatever its deprecation, version and date. */
  lemma RevocationFirst(oldSnap: Snapshot, newSnap: Snapshot, k: Id)
    requires k in oldSnap && k in newSnap
    ensures k in DiffOf(oldSnap, newSnap).revocations <==>
      IsTrue(newSnap[k].revoked) && !IsTrue(oldSnap[k].revoked)
  {
  }

  /** A key revoked in both snapshots lands nowhere. */
  lemma AlreadyRevoked(oldSnap: Snapshot, newSnap: Snapshot, k: Id)
    requires k in oldSnap && k in newSnap
    requires IsTrue(newSnap[k].revoked) && IsTrue(oldSnap[k].revoked)
    ensures forall c :: k !in DiffOf(oldSnap, newSnap).Section(c)
    ensures k !in DiffOf(oldSnap, newSnap).skipped
  {
  }

  /** Deprecation is tested only when the new record is not revoked, and only the old key's presence counts. */
  lemma DeprecationSecond(oldSnap: Snapshot, newSnap: Snapshot, k: Id)
    requires k in oldSnap && k in newSnap
    ensures k in DiffOf(oldSnap, newSnap).deprecations <==>
      !IsTrue(newSnap[k].revoked) && IsTrue(newSnap[k].deprecated) && oldSnap[k].deprecated.None?
  {
  }

  /** `x_mitre_deprecated` present in the old record, even false, means no section. */
  lemma DeprecatedKeyInOld(oldSnap: Snapshot, newSnap: Snapshot, k: Id)
    requires k in oldSnap && k in newSnap
    requires !IsTrue(newSnap[k].revoked) && IsTrue(newSnap[k].deprecated) && oldSnap[k].deprecated.Some?
    ensures forall c :: k !in DiffOf(oldSnap, newSnap).Section(c)
    ensures k !in DiffOf(oldSnap, newSnap).skipped
  {
  }

  /** A version increase is a change whatever the dates. */
  lemma VersionBumpIsChange(oldSnap: Snapshot, newSnap: Snapshot, k: Id)
    requires k in oldSnap && k in newSnap
    ensures k in DiffOf(oldSnap, newSnap).changes <==>
      && !IsTrue(newSnap[k].revoked) && !IsTrue(newSnap[k].deprecated)
      && oldSnap[k].version.Some? && newSnap[k].version.Some?
      && newSnap[k].version.value > oldSnap[k].version.value
  {
  }

  /** Without a version increase, a later modification date is a minor change. */
  lemma LaterDateIsMinorChange(oldSnap: Snapshot, newSnap: Snapshot, k: Id)
    requires k in oldSnap && k in newSnap
    ensures k in DiffOf(oldSnap, newSnap).minorChanges <==>
      && !IsTrue(newSnap[k].revoked) && !IsTrue(newSnap[k].deprecated)
      && oldSnap[k].version.Some? && newSnap[k].version.Some?
      && newSnap[k].version.value <= oldSnap[k].version.value
      && oldSnap[k].modified.Some? && newSnap[k].modified.Some?
      && newSnap[k].modified.value > oldSnap[k].modified.value
  {
  }

  /** Reaching the date comparison with a `modified` key missing raises, the old record's checked first. */
  lemma MissingDateRaises(oldSnap: Snapshot, newSnap: Snapshot, rels: seq<Relationship>, k: Id, side: Side)
    requires k in oldSnap && k in newSnap
    ensures FaultAt(k, oldSnap[k], newSnap[k], newSnap, rels) == Some(MissingModified(k, side)) <==>
      && !IsTrue(newSnap[k].revoked) && !IsTrue(newSnap[k].deprecated)
      && oldSnap[k].version.Some? && newSnap[k].version.Some?
      && newSnap[k].version.value <= oldSnap[k].version.value
      && (if side == Old then oldSnap[k].modified.None?
          else oldSnap[k].modified.Some? && newSnap[k].modified.None?)
  {
  }

  /** A newly revoked key's record names its revoker, the first match in store order, loaded in the new snapshot; nothing else changes. */
  lemma RevokerAttached(oldSnap: Snapshot, newSnap: Snapshot, rels: seq<Relationship>, k: Id)
    requires NoFault(oldSnap, newSnap, rels)
    requires k in newSnap
    ensures var d := DiffOf(oldSnap, newSnap);
      var out := WithRevokers(newSnap, d.revocations, rels);
      if k in d.revocations then
        exists i | 0 <= i < |rels| ::
          && RevokesFrom(rels[i], k)
          && (forall j | 0 <= j < i :: !RevokesFrom(rels[j], k))
          && rels[i].targetRef in newSnap
          && out[k] == newSnap[k].(revokedBy := Some(rels[i].targetRef))
      else out[k] == newSnap[k]
  {
    var d := DiffOf(oldSnap, newSnap);
    if k in d.revocations {
      assert Decide(oldSnap[k], newSnap[k]) == Revoked;
      assert FaultAt(k, oldSnap[k], newSnap[k], newSnap, rels).None?;
      var i := FirstRevoking(rels, k);
      assert i < |rels|;
    }
  }
}
