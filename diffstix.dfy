/**
 * The `DiffStix` object: `load_data` fills `data` with one result dictionary
 * per (object type, domain) pair, and `get_layers_dict` turns the technique
 * results of each domain into an ATT&CK Navigator layer.
 */
module Report {
  import opened Wrappers
  import opened Stix
  import opened Classify
  import opened Layers

  /** What loading one (type, domain) pair yields: both versions and the new store's relationships. */
  datatype Inputs = Inputs(oldSnap: Snapshot, newSnap: Snapshot, rels: seq<Relationship>)

  predicate Loadable(inputs: Inputs)
  {
    WellKeyed(inputs.oldSnap) && WellKeyed(inputs.newSnap)
  }

  /** `f` is an exception that comparing the two versions of `inputs` raises at some key. */
  predicate RaisedBy(inputs: Inputs, f: Fault)
  {
    exists k | k in inputs.oldSnap && k in inputs.newSnap ::
      FaultAt(k, inputs.oldSnap[k], inputs.newSnap[k], inputs.newSnap, inputs.rels) == Some(f)
  }

  /** An ATT&CK Navigator layer file. */
  datatype Layer = Layer(
    version: string,
    name: string,
    description: string,
    domain: string,
    techniques: seq<Entry>,
    sorting: int,
    hideDisabled: bool,
    legendItems: seq<LegendItem>,
    showTacticRowBackground: bool,
    tacticRowBackground: string,
    selectTechniquesAcrossTactics: bool,
    stages: Option<seq<string>>)

  /** The legend lists each used status once, in unspecified order. */
  predicate LegendFor(items: seq<LegendItem>, used: set<Category>)
  {
    && (set i | 0 <= i < |items| :: items[i]) == (set c | c in used :: LegendOf(c))
    && (forall i, j | 0 <= i < j < |items| :: items[i] != items[j])
  }

  /** The layer of domain `d` built from its technique results `sec`. */
  predicate LayerOf(layer: Layer, d: Domain, sec: Sections, thedate: string)
    requires DrawableSections(sec)
  {
    && layer.version == "2.2"
    && layer.name == thedate + " " + DomainLabel(d) + " Updates"
    && layer.description == DomainLabel(d) + " updates for the " + thedate + " release of ATT&CK"
    && layer.domain == LayerFileDomain(d)
    && layer.techniques == Techniques(sec)
    && layer.sorting == 0
    && !layer.hideDisabled
    && LegendFor(layer.legendItems, UsedStatuses(sec))
    && layer.showTacticRowBackground
    && layer.tacticRowBackground == "#205b8f"
    && layer.selectTechniquesAcrossTactics
    && layer.stages == (if d == PreAttack then Some(["prepare"]) else None)
  }

  type Results = map<ObjType, map<Domain, Sections>>

  /** The result of pair (t, d) is present in `data` and is the comparison of its inputs. */
  predicate ResultIn(data: Results, minor: bool, t: ObjType, d: Domain, inputs: Inputs)
  {
    t in data && d in data[t] && Compared(data[t][d], inputs.oldSnap, inputs.newSnap, inputs.rels, minor)
  }

  /** Every result of `data0` outside type `t` and domains `ds` is still in `data1`, unchanged. */
  predicate Kept(data0: Results, data1: Results, t: ObjType, ds: set<Domain>)
  {
    forall t', d' {:trigger data0[t'][d']} | t' in data0 && d' in data0[t'] && !(t' == t && d' in ds) ::
      t' in data1 && d' in data1[t'] && data1[t'][d'] == data0[t'][d']
  }

  /** Creates the type's dictionary when it is missing, then sets the domain's entry. */
  function Store(data: Results, t: ObjType, d: Domain, sec: Sections): (r: Results)
    ensures r.Keys == data.Keys + {t}
    ensures r[t].Keys == (if t in data then data[t].Keys else {}) + {d}
    ensures r[t][d] == sec
    ensures forall t' | t' in data && t' != t :: r[t'] == data[t']
  {
    var forType := if t in data then data[t] else map[];
    data[t := forType[d := sec]]
  }

  lemma StoreKept(data: Results, t: ObjType, d: Domain, sec: Sections)
    ensures Kept(data, Store(data, t, d, sec), t, {d})
  {
  }

  /**
   * `data1` is `data0` after storing a result for type `t` and each domain of
   * `ds`: the type is added (when `ds` is not empty), gains exactly those
   * domains, and every other type is untouched.
   */
  predicate Grown(data0: Results, data1: Results, t: ObjType, ds: set<Domain>)
  {
    if ds == {} then data1 == data0
    else
      && data1.Keys == data0.Keys + {t}
      && data1[t].Keys == (if t in data0 then data0[t].Keys else {}) + ds
      && forall t' | t' in data0 && t' != t :: data1[t'] == data0[t']
  }

  /** Storing one more domain's result. */
  lemma GrownStep(data0: Results, data1: Results, t: ObjType, ds: set<Domain>, d: Domain, sec: Sections)
    requires Grown(data0, data1, t, ds)
    ensures Grown(data0, Store(data1, t, d, sec), t, ds + {d})
  {
  }

  /** The same for every type of `ts`, each with the domains `ds`. */
  predicate GrownAll(data0: Results, data1: Results, ts: set<ObjType>, ds: set<Domain>)
  {
    if ds == {} then data1 == data0
    else
      && data1.Keys == data0.Keys + ts
      && (forall t | t in ts :: data1[t].Keys == (if t in data0 then data0[t].Keys else {}) + ds)
      && forall t' | t' in data0 && t' !in ts :: data1[t'] == data0[t']
  }

  /**
   * After the first `j` domains of type `t`: each holds its result, `data`
   * grew by exactly those domains of `t`, and nothing else changed.
   */
  predicate DomainsDone(data0: Results, data: Results, minor: bool, t: ObjType, ds: seq<Domain>, j: nat,
                        inputs: (ObjType, Domain) -> Inputs)
    requires j <= |ds|
  {
    && TypeLoaded(data, minor, t, ds, j, inputs)
    && Grown(data0, data, t, Among(ds, j))
    && Kept(data0, data, t, Among(ds, |ds|))
  }

  /** Storing domain `ds[j]` of type `t` keeps all three loop facts of `LoadDomains`. */
  lemma DomainStep(data0: Results, before: Results, data: Results, minor: bool, t: ObjType, ds: seq<Domain>,
                   j: nat, sec: Sections, inputs: (ObjType, Domain) -> Inputs)
    requires j < |ds|
    requires DomainsDone(data0, before, minor, t, ds, j, inputs)
    requires data == Store(before, t, ds[j], sec)
    requires NoFault(inputs(t, ds[j]).oldSnap, inputs(t, ds[j]).newSnap, inputs(t, ds[j]).rels)
    requires ResultIn(data, minor, t, ds[j], inputs(t, ds[j]))
    ensures DomainsDone(data0, data, minor, t, ds, j + 1, inputs)
  {
    AmongStep(ds, j);
    GrownStep(data0, before, t, Among(ds, j), ds[j], sec);
    StoreKept(before, t, ds[j], sec);
    assert ds[j] in Among(ds, |ds|);
    KeptTrans(data0, before, data, t, Among(ds, |ds|), ds[j]);
    TypeLoadedStep(before, data, minor, t, ds, j, inputs);
  }

  /** Loading one more type. */
  lemma GrownAllStep(data0: Results, data1: Results, data2: Results, ts: set<ObjType>, ds: set<Domain>, t: ObjType)
    requires GrownAll(data0, data1, ts, ds) && Grown(data1, data2, t, ds)
    ensures GrownAll(data0, data2, ts + {t}, ds)
  {
    if ds != {} {
      assert data2.Keys == data0.Keys + (ts + {t});
      forall t'' | t'' in ts + {t}
        ensures data2[t''].Keys == (if t'' in data0 then data0[t''].Keys else {}) + ds
      {
        if t'' != t {
          assert data2[t''] == data1[t''];
        } else if t in ts {
          assert data1[t].Keys == (if t in data0 then data0[t].Keys else {}) + ds;
        } else if t in data0 {
          assert data1[t] == data0[t];
        } else {
          assert t !in data1;
        }
      }
      forall t' | t' in data0 && t' !in ts + {t}
        ensures data2[t'] == data0[t']
      {
        assert data2[t'] == data1[t'];
      }
    }
  }

  /** Every pair of the first `n` types and all domains compares without raising, and its result is stored. */
  predicate AllLoaded(data: Results, minor: bool, ts: seq<ObjType>, n: nat, ds: seq<Domain>,
                      inputs: (ObjType, Domain) -> Inputs)
    requires n <= |ts|
  {
    forall a, b | 0 <= a < n && 0 <= b < |ds| ::
      && NoFault(inputs(ts[a], ds[b]).oldSnap, inputs(ts[a], ds[b]).newSnap, inputs(ts[a], ds[b]).rels)
      && ResultIn(data, minor, ts[a], ds[b], inputs(ts[a], ds[b]))
  }

  /** Every domain of type `t` compares without raising, and its result is stored. */
  predicate TypeLoaded(data: Results, minor: bool, t: ObjType, ds: seq<Domain>, n: nat,
                       inputs: (ObjType, Domain) -> Inputs)
    requires n <= |ds|
  {
    forall b | 0 <= b < n ::
      && NoFault(inputs(t, ds[b]).oldSnap, inputs(t, ds[b]).newSnap, inputs(t, ds[b]).rels)
      && ResultIn(data, minor, t, ds[b], inputs(t, ds[b]))
  }

  /** Loading type `ts[n]` keeps the earlier types' results outside its own. */
  lemma AllLoadedStep(before: Results, data: Results, minor: bool, ts: seq<ObjType>, n: nat, ds: seq<Domain>,
                      inputs: (ObjType, Domain) -> Inputs)
    requires n < |ts|
    requires AllLoaded(before, minor, ts, n, ds, inputs)
    requires Kept(before, data, ts[n], Among(ds, |ds|))
    requires TypeLoaded(data, minor, ts[n], ds, |ds|, inputs)
    ensures AllLoaded(data, minor, ts, n + 1, ds, inputs)
  {
    forall a, b | 0 <= a < n + 1 && 0 <= b < |ds|
      ensures ResultIn(data, minor, ts[a], ds[b], inputs(ts[a], ds[b]))
    {
      if ts[a] != ts[n] {
        KeptResult(before, data, ts[n], Among(ds, |ds|), minor, ts[a], ds[b], inputs(ts[a], ds[b]));
      }
    }
  }

  /** Every result of `data0` outside the types `ts` crossed with the domains `ds` is still in `data1`, unchanged. */
  predicate KeptAll(data0: Results, data1: Results, ts: set<ObjType>, ds: set<Domain>)
  {
    forall t', d' {:trigger data0[t'][d']} | t' in data0 && d' in data0[t'] && !(t' in ts && d' in ds) ::
      t' in data1 && d' in data1[t'] && data1[t'][d'] == data0[t'][d']
  }

  /** Overwriting the domains `ds` of one more type keeps what lies outside the grown product. */
  lemma KeptAllStep(data0: Results, data1: Results, data2: Results, ts: set<ObjType>, ds: set<Domain>, t: ObjType)
    requires KeptAll(data0, data1, ts, ds) && Kept(data1, data2, t, ds)
    ensures KeptAll(data0, data2, ts + {t}, ds)
  {
    forall t', d' | t' in data0 && d' in data0[t'] && !(t' in ts + {t} && d' in ds)
      ensures t' in data2 && d' in data2[t'] && data2[t'][d'] == data0[t'][d']
    {
      assert t' in data1 && d' in data1[t'] && data1[t'][d'] == data0[t'][d'];
    }
  }

  /**
   * After the first `n` types, each with all domains `ds`: every pair holds
   * its result, `data` grew by exactly those types and domains, and every
   * other result is unchanged.
   */
  predicate TypesDone(data0: Results, data: Results, minor: bool, ts: seq<ObjType>, n: nat, ds: seq<Domain>,
                      inputs: (ObjType, Domain) -> Inputs)
    requires n <= |ts|
  {
    && AllLoaded(data, minor, ts, n, ds, inputs)
    && GrownAll(data0, data, Among(ts, n), Among(ds, |ds|))
    && KeptAll(data0, data, Among(ts, n), Among(ds, |ds|))
  }

  /** Loading all domains of type `ts[n]` keeps both loop facts of `LoadData`. */
  lemma TypeStep(data0: Results, before: Results, data: Results, minor: bool, ts: seq<ObjType>, n: nat,
                 ds: seq<Domain>, inputs: (ObjType, Domain) -> Inputs)
    requires n < |ts|
    requires TypesDone(data0, before, minor, ts, n, ds, inputs)
    requires TypeLoaded(data, minor, ts[n], ds, |ds|, inputs)
    requires Grown(before, data, ts[n], Among(ds, |ds|))
    requires Kept(before, data, ts[n], Among(ds, |ds|))
    ensures TypesDone(data0, data, minor, ts, n + 1, ds, inputs)
  {
    AmongStep(ts, n);
    GrownAllStep(data0, before, data, Among(ts, n), Among(ds, |ds|), ts[n]);
    AllLoadedStep(before, data, minor, ts, n, ds, inputs);
    KeptAllStep(data0, before, data, Among(ts, n), Among(ds, |ds|), ts[n]);
  }

  /** Loading domain `ds[n]` of type `t` keeps the earlier domains' results. */
  lemma TypeLoadedStep(before: Results, data: Results, minor: bool, t: ObjType, ds: seq<Domain>, n: nat,
                       inputs: (ObjType, Domain) -> Inputs)
    requires n < |ds|
    requires TypeLoaded(before, minor, t, ds, n, inputs)
    requires Kept(before, data, t, {ds[n]})
    requires NoFault(inputs(t, ds[n]).oldSnap, inputs(t, ds[n]).newSnap, inputs(t, ds[n]).rels)
    requires ResultIn(data, minor, t, ds[n], inputs(t, ds[n]))
    ensures TypeLoaded(data, minor, t, ds, n + 1, inputs)
  {
    forall b | 0 <= b < n + 1
      ensures ResultIn(data, minor, t, ds[b], inputs(t, ds[b]))
    {
      if ds[b] != ds[n] {
        KeptResult(before, data, t, {ds[n]}, minor, t, ds[b], inputs(t, ds[b]));
      }
    }
  }

  /** The first `n` elements of `xs`, as a set. */
  function Among<T>(xs: seq<T>, n: nat): set<T>
    requires n <= |xs|
  {
    set i | 0 <= i < n :: xs[i]
  }

  lemma AmongNone<T>(xs: seq<T>)
    ensures Among(xs, 0) == {}
  {
  }

  lemma AmongStep<T>(xs: seq<T>, n: nat)
    requires n < |xs|
    ensures Among(xs, n + 1) == Among(xs, n) + {xs[n]}
  {
  }

  /** Overwriting one more of the domains `ds` keeps what lies outside them. */
  lemma KeptTrans(data0: Results, data1: Results, data2: Results, t: ObjType, ds: set<Domain>, d: Domain)
    requires Kept(data0, data1, t, ds) && Kept(data1, data2, t, {d}) && d in ds
    ensures Kept(data0, data2, t, ds)
  {
    forall t', d' | t' in data0 && d' in data0[t'] && !(t' == t && d' in ds)
      ensures t' in data2 && d' in data2[t'] && data2[t'][d'] == data0[t'][d']
    {
      assert t' in data1 && d' in data1[t'] && data1[t'][d'] == data0[t'][d'];
    }
  }

  /** A result outside the overwritten ones survives. */
  lemma KeptResult(data0: Results, data1: Results, t: ObjType, ds: set<Domain>,
                   minor: bool, t': ObjType, d': Domain, inputs: Inputs)
    requires Kept(data0, data1, t, ds) && ResultIn(data0, minor, t', d', inputs)
    requires !(t' == t && d' in ds)
    ensures ResultIn(data1, minor, t', d', inputs)
  {
    assert data1[t'][d'] == data0[t'][d'];
  }

  class DiffStix {
    const domains: seq<Domain>
    const types: seq<ObjType>
    const minorChanges: bool
    /** Object type to domain to the result dictionary of that pair. */
    var data: Results

    constructor (domains: seq<Domain>, types: seq<ObjType>, minorChanges: bool)
      ensures this.domains == domains && this.types == types && this.minorChanges == minorChanges
      ensures data == map[]
    {
      this.domains := domains;
      this.types := types;
      this.minorChanges := minorChanges;
      data := map[];
    }

    /** The constructor with every argument left at its default: all three domains, all four types, no minor changes. */
    constructor Default()
      ensures domains == [EnterpriseAttack, PreAttack, MobileAttack]
      ensures types == [Technique, Software, Group, Mitigation]
      ensures !minorChanges
      ensures data == map[]
    {
      domains := [EnterpriseAttack, PreAttack, MobileAttack];
      types := [Technique, Software, Group, Mitigation];
      minorChanges := false;
      data := map[];
    }

    /** Compares one pair and stores its result; on an exception `data` is left as it was. */
    method LoadPair(t: ObjType, d: Domain, inputs: Inputs) returns (fault: Option<Fault>)
      requires Loadable(inputs)
      modifies this
      ensures fault.None? <==> NoFault(inputs.oldSnap, inputs.newSnap, inputs.rels)
      ensures fault.Some? ==> RaisedBy(inputs, fault.value) && data == old(data)
      ensures fault.None? ==> ResultIn(data, minorChanges, t, d, inputs)
      ensures fault.None? ==> data == Store(old(data), t, d, data[t][d])
    {
      var sec;
      sec, fault := CompareSnapshots(inputs.oldSnap, inputs.newSnap, inputs.rels, minorChanges);
      if fault.None? {
        data := Store(data, t, d, sec);
      }
    }

    /** One turn of the inner loop of `load_data`: domain `domains[j]` of type `t`. */
    method LoadDomainAt(t: ObjType, j: nat, inputs: (ObjType, Domain) -> Inputs, ghost data0: Results)
      returns (fault: Option<Fault>)
      requires j < |domains| && Loadable(inputs(t, domains[j]))
      requires DomainsDone(data0, data, minorChanges, t, domains, j, inputs)
      modifies this
      ensures fault.Some? ==> RaisedBy(inputs(t, domains[j]), fault.value)
      ensures fault.None? ==> DomainsDone(data0, data, minorChanges, t, domains, j + 1, inputs)
    {
      var d := domains[j];
      ghost var before := data;
      fault := LoadPair(t, d, inputs(t, d));
      if fault.None? {
        DomainStep(data0, before, data, minorChanges, t, domains, j, data[t][d], inputs);
      }
    }

    /** The inner loop of `load_data`: every domain of one object type. */
    method LoadDomains(t: ObjType, inputs: (ObjType, Domain) -> Inputs) returns (fault: Option<Fault>)
      requires forall d :: Loadable(inputs(t, d))
      modifies this
      ensures fault.Some? ==> exists b | 0 <= b < |domains| :: RaisedBy(inputs(t, domains[b]), fault.value)
      ensures fault.None? ==> TypeLoaded(data, minorChanges, t, domains, |domains|, inputs)
      ensures fault.None? ==> Grown(old(data), data, t, Among(domains, |domains|))
      ensures fault.None? ==> Kept(old(data), data, t, Among(domains, |domains|))
    {
      fault := None;
      AmongNone(domains);
      for j := 0 to |domains|
        invariant fault.None?
        invariant DomainsDone(old(data), data, minorChanges, t, domains, j, inputs)
      {
        fault := LoadDomainAt(t, j, inputs, old(data));
        if fault.Some? {
          assert RaisedBy(inputs(t, domains[j]), fault.value);
          return;
        }
      }
    }

    /** One turn of the outer loop of `load_data`: every domain of type `types[i]`. */
    method LoadTypeAt(i: nat, inputs: (ObjType, Domain) -> Inputs, ghost data0: Results) returns (fault: Option<Fault>)
      requires i < |types| && forall d :: Loadable(inputs(types[i], d))
      requires TypesDone(data0, data, minorChanges, types, i, domains, inputs)
      modifies this
      ensures fault.Some? ==> exists b | 0 <= b < |domains| :: RaisedBy(inputs(types[i], domains[b]), fault.value)
      ensures fault.None? ==> TypesDone(data0, data, minorChanges, types, i + 1, domains, inputs)
    {
      ghost var before := data;
      fault := LoadDomains(types[i], inputs);
      if fault.None? {
        TypeStep(data0, before, data, minorChanges, types, i, domains, inputs);
      }
    }

    /**
     * `load_data`: the nested loops over types and domains. Loading each
     * pair's inputs is I/O, so `inputs` hands them in. The first exception
     * stops the run. Without one, every pair holds its comparison result,
     * `data` gains exactly the listed types, each gains exactly the listed
     * domains, every other type is untouched, and every result stored
     * before outside the listed pairs keeps its value.
     */
    method LoadData(inputs: (ObjType, Domain) -> Inputs) returns (fault: Option<Fault>)
      requires forall t, d :: Loadable(inputs(t, d))
      modifies this
      ensures fault.Some? ==> exists a, b | 0 <= a < |types| && 0 <= b < |domains| ::
        RaisedBy(inputs(types[a], domains[b]), fault.value)
      ensures fault.None? ==> AllLoaded(data, minorChanges, types, |types|, domains, inputs)
      ensures fault.None? ==> GrownAll(old(data), data, Among(types, |types|), Among(domains, |domains|))
      ensures fault.None? ==> KeptAll(old(data), data, Among(types, |types|), Among(domains, |domains|))
    {
      fault := None;
      AmongNone(types);
      for i := 0 to |types|
        invariant fault.None?
        invariant TypesDone(old(data), data, minorChanges, types, i, domains, inputs)
      {
        fault := LoadTypeAt(i, inputs, old(data));
        if fault.Some? {
          ghost var b :| 0 <= b < |domains| && RaisedBy(inputs(types[i], domains[b]), fault.value);
          return;
        }
      }
    }

    /** `get_layers_dict` reads `data["technique"][domain]` for every domain. */
    predicate HasTechniqueResults()
      reads this
    {
      Technique in data && forall d | d in domains :: d in data[Technique] && DrawableSections(data[Technique][d])
    }

    /** `get_layers_dict`: one layer per domain; `thedate` is today's month and year. */
    method GetLayersDict(thedate: string) returns (layers: map<Domain, Layer>)
      requires HasTechniqueResults()
      ensures layers.Keys == set d | d in domains
      ensures forall d | d in layers :: LayerOf(layers[d], d, data[Technique][d], thedate)
    {
      layers := map[];
      for i := 0 to |domains|
        invariant layers.Keys == set b | 0 <= b < i :: domains[b]
        invariant forall d | d in layers :: d in domains && LayerOf(layers[d], d, data[Technique][d], thedate)
      {
        var domain := domains[i];
        var sec := data[Technique][domain];
        var techniques, used := BuildTechniques(sec);
        var legendItems := BuildLegend(used);
        var domainLabel := DomainLabel(domain);
        var stages := if domain == PreAttack then Some(["prepare"]) else None;
        var layer := Layer("2.2", thedate + " " + domainLabel + " Updates",
                           domainLabel + " updates for the " + thedate + " release of ATT&CK",
                           LayerFileDomain(domain), techniques, 0, false, legendItems,
                           true, "#205b8f", true, stages);
        layers := layers[domain := layer];
      }
      assert forall d | d in domains :: exists b | 0 <= b < |domains| :: domains[b] == d;
    }
  }
}
