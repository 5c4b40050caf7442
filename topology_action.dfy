/**
 * grid2op's `TopologyAction`: an action that may only change the topology
 * (line statuses and bus assignments). Its writable keys are those of the base
 * class minus "injection" and "redispatch", `update` never digests injection
 * content, and `__call__` rejects any injection content that is left.
 *
 * The module holds the specification functions of the action's value
 * (NarrowKeys, UnauthorizedWarnings, UpdateSpec, Materialize) and the class
 * TopologyAction, whose methods are proved against them.
 */
module Topology {
  import opened Wrappers
  import opened ActionBase

  /** The diagnostic `update` emits for a key it ignores: the key and the valid keys. */
  datatype Warning = IgnoredKey(key: string, validKeys: set<string>)

  /** What `__call__` returns: the injection dictionary and the five vectors, in this order. */
  datatype Materialized = Materialized(
    dictInjection: map<string, seq<real>>,
    setLineStatus: seq<int>,
    switchLineStatus: seq<bool>,
    setTopoVect: seq<int>,
    changeBusVect: seq<bool>,
    redispatch: seq<real>)

  /** What one call of `update` does: the new value, the warnings, and the error it raised if any. */
  datatype UpdateResult = UpdateResult(state: ActionState, warnings: seq<Warning>, error: Option<ActionError>)

  /** The vectors a TopologyAction exposes through `attr_list_vect`, in this order. */
  const AttrListVect: seq<string> :=
    ["_set_line_status", "_switch_line_status", "_set_topo_vect", "_change_bus_vect"]

  /** The writable keys of a TopologyAction, from the base class's keys. */
  function NarrowKeys(base: set<string>): (r: set<string>)
    ensures r == base - {InjectionKey, RedispatchKey}
    ensures InjectionKey !in r && RedispatchKey !in r
  {
    set k | k in base && k != InjectionKey && k != RedispatchKey
  }

  /**
   * The warnings of `update`'s loop over `keys`: one per key outside `auth`,
   * in the order of `keys`.
   */
  function UnauthorizedWarnings(keys: seq<string>, auth: set<string>): (w: seq<Warning>)
    ensures |w| <= |keys|
  {
    if keys == [] then []
    else
      var last := keys[|keys| - 1];
      UnauthorizedWarnings(keys[..|keys| - 1], auth)
        + (if last in auth then [] else [IgnoredKey(last, auth)])
  }

  /**
   * The four digests of `update`, in the source's order: set-bus, change-bus,
   * set-status, change-status. A digest that raises stops the sequence; the
   * value then holds what the digests before it wrote.
   */
  function DigestTopology(s: ActionState, d: Dict): (r: (ActionState, Option<ActionError>))
    ensures r.0.SameShape(s)
    ensures r.0.dictInj == s.dictInj && r.0.redispatch == s.redispatch
    // The order, stated through each digest taken alone on the original fields:
    // the first of set-bus, change-bus, set-status, change-status that fails
    // gives the error; the fields before it hold their digested values and the
    // fields from it on keep their original values.
    ensures var sb := DigestInts(s.setTopoVect, d, SetBusKey);
      var cb := DigestBools(s.changeBusVect, d, ChangeBusKey);
      var ss := DigestInts(s.setLineStatus, d, SetStatusKey);
      var cs := DigestBools(s.switchLineStatus, d, ChangeStatusKey);
      r == if sb.Failure? then (s, Some(sb.error))
           else if cb.Failure? then (s.(setTopoVect := sb.value), Some(cb.error))
           else if ss.Failure? then
             (s.(setTopoVect := sb.value, changeBusVect := cb.value), Some(ss.error))
           else if cs.Failure? then
             (s.(setTopoVect := sb.value, changeBusVect := cb.value, setLineStatus := ss.value),
              Some(cs.error))
           else
             (s.(setTopoVect := sb.value, changeBusVect := cb.value, setLineStatus := ss.value,
                 switchLineStatus := cs.value), None)
  {
    match ApplySetBus(s, d)
    case Failure(e) => (s, Some(e))
    case Success(s1) =>
      match ApplyChangeBus(s1, d)
      case Failure(e) => (s1, Some(e))
      case Success(s2) =>
        match ApplySetStatus(s2, d)
        case Failure(e) => (s2, Some(e))
        case Success(s3) =>
          match ApplyChangeStatus(s3, d)
          case Failure(e) => (s3, Some(e))
          case Success(s4) => (s4, None)
  }

  /**
   * `update(dict_)`: reset, then (for a dictionary) warn about every
   * unauthorized key and run the four topology digests. Injections are never
   * digested.
   */
  function UpdateSpec(s: ActionState, dict: Option<Dict>): (r: UpdateResult)
    ensures r.state.SameShape(s)
    ensures r.state.dictInj == map[]
    ensures forall i :: 0 <= i < |r.state.redispatch| ==> r.state.redispatch[i] == 0.0
    ensures dict.None? ==> r == UpdateResult(ResetState(s), [], None)
    ensures dict.Some? ==> r.warnings == UnauthorizedWarnings(Keys(dict.value), s.authorizedKeys)
    ensures dict.Some? ==> (r.state, r.error) == DigestTopology(ResetState(s), dict.value)
  {
    match dict
    case None => UpdateResult(ResetState(s), [], None)
    case Some(d) =>
      var digested := DigestTopology(ResetState(s), d);
      UpdateResult(digested.0, UnauthorizedWarnings(Keys(d), s.authorizedKeys), digested.1)
  }

  /**
   * `__call__`: injection content is rejected first, then the generic
   * ambiguity check runs; on success the injection component is empty and
   * the vectors are the stored ones.
   */
  function Materialize(s: ActionState): (r: Result<Materialized, ActionError>)
    requires s.WellShaped()
    ensures s.dictInj != map[] ==> r == Failure(AmbiguousAction(InjectionOnTopologyAction))
    ensures r.Success? <==> s.dictInj == map[] && !LineConflict(s) && !BusConflict(s) && InDomain(s)
    ensures s.dictInj == map[] && r.Failure? ==> Some(r.error) == CheckForAmbiguity(s)
    ensures r.Success? ==> r.value == Materialized(map[], s.setLineStatus, s.switchLineStatus,
                                                   s.setTopoVect, s.changeBusVect, s.redispatch)
  {
    if s.dictInj != map[] then Failure(AmbiguousAction(InjectionOnTopologyAction))
    else
      match CheckForAmbiguity(s)
      case Some(e) => Failure(e)
      case None => Success(Materialized(map[], s.setLineStatus, s.switchLineStatus,
                                        s.setTopoVect, s.changeBusVect, s.redispatch))
  }

  /** Sets every element of `a` to `x`. */
  method Fill<T>(a: array<T>, x: T)
    modifies a
    ensures a[..] == seq(a.Length, _ => x)
  {
    var i := 0;
    while i < a.Length
      invariant 0 <= i <= a.Length
      invariant forall k :: 0 <= k < i ==> a[k] == x
    {
      a[i] := x;
      i := i + 1;
    }
  }

  /** Overwrites `a` with `v`, element by element. */
  method CopyInto<T>(a: array<T>, v: seq<T>)
    requires |v| == a.Length
    modifies a
    ensures a[..] == v
  {
    var i := 0;
    while i < a.Length
      invariant 0 <= i <= a.Length
      invariant forall k :: 0 <= k < i ==> a[k] == v[k]
    {
      a[i] := v[i];
      i := i + 1;
    }
  }

  class TopologyAction {
    var authorizedKeys: set<string>
    var attrListVect: seq<string>
    var dictInj: map<string, seq<real>>
    const setLineStatus: array<int>
    const switchLineStatus: array<bool>
    const setTopoVect: array<int>
    const changeBusVect: array<bool>
    var redispatch: seq<real>

    /** The two integer vectors are distinct arrays, and so are the two boolean ones. */
    ghost predicate Valid()
      reads this
    {
      setLineStatus != setTopoVect && switchLineStatus != changeBusVect
      && setLineStatus.Length == switchLineStatus.Length
      && setTopoVect.Length == changeBusVect.Length
    }

    /** The value of this action. */
    function State(): (s: ActionState)
      reads this, setLineStatus, switchLineStatus, setTopoVect, changeBusVect
    {
      ActionState(authorizedKeys, dictInj, setLineStatus[..], switchLineStatus[..],
                  setTopoVect[..], changeBusVect[..], redispatch)
    }

    /**
     * `__init__`: the base constructor (keys `baseKeys`, neutral vectors of
     * the grid's sizes), then the key narrowing and `attr_list_vect`.
     */
    constructor (baseKeys: set<string>, nLine: nat, dimTopo: nat, nGen: nat)
      ensures Valid()
      ensures fresh(setLineStatus) && fresh(switchLineStatus) && fresh(setTopoVect) && fresh(changeBusVect)
      ensures authorizedKeys == NarrowKeys(baseKeys)
      ensures attrListVect == AttrListVect
      ensures IsNeutral(State())
      ensures setLineStatus.Length == nLine && setTopoVect.Length == dimTopo && |redispatch| == nGen
    {
      setLineStatus := new int[nLine](_ => 0);
      switchLineStatus := new bool[nLine](_ => false);
      setTopoVect := new int[dimTopo](_ => 0);
      changeBusVect := new bool[dimTopo](_ => false);
      redispatch := seq(nGen, _ => 0.0);
      dictInj := map[];
      authorizedKeys := baseKeys;
      attrListVect := [];
      new;
      authorizedKeys := NarrowKeys(authorizedKeys);
      attrListVect := AttrListVect;
    }

    /** `_reset_vect`: every vector back to neutral, `_dict_inj` emptied. */
    method ResetVect()
      requires Valid()
      modifies this, setLineStatus, switchLineStatus, setTopoVect, changeBusVect
      ensures Valid()
      ensures State() == ResetState(old(State()))
      ensures attrListVect == old(attrListVect)
    {
      Fill(setLineStatus, 0);
      Fill(switchLineStatus, false);
      Fill(setTopoVect, 0);
      Fill(changeBusVect, false);
      redispatch := seq(|redispatch|, _ => 0.0);
      dictInj := map[];
    }

    /** `reset`: ASSUMPTION, the base class's reset is `_reset_vect`. */
    method Reset()
      requires Valid()
      modifies this, setLineStatus, switchLineStatus, setTopoVect, changeBusVect
      ensures Valid()
      ensures State() == ResetState(old(State()))
      ensures attrListVect == old(attrListVect)
    {
      ResetVect();
    }

    method DigestSetBus(d: Dict) returns (err: Option<ActionError>)
      requires Valid()
      modifies setTopoVect
      ensures err.None? ==> ApplySetBus(old(State()), d) == Success(State())
      ensures err.Some? ==> ApplySetBus(old(State()), d) == Failure(err.value) && State() == old(State())
    {
      match DigestInts(setTopoVect[..], d, SetBusKey)
      case Success(v) => CopyInto(setTopoVect, v); err := None;
      case Failure(e) => err := Some(e);
    }

    method DigestChangeBus(d: Dict) returns (err: Option<ActionError>)
      requires Valid()
      modifies changeBusVect
      ensures err.None? ==> ApplyChangeBus(old(State()), d) == Success(State())
      ensures err.Some? ==> ApplyChangeBus(old(State()), d) == Failure(err.value) && State() == old(State())
    {
      match DigestBools(changeBusVect[..], d, ChangeBusKey)
      case Success(v) => CopyInto(changeBusVect, v); err := None;
      case Failure(e) => err := Some(e);
    }

    method DigestSetStatus(d: Dict) returns (err: Option<ActionError>)
      requires Valid()
      modifies setLineStatus
      ensures err.None? ==> ApplySetStatus(old(State()), d) == Success(State())
      ensures err.Some? ==> ApplySetStatus(old(State()), d) == Failure(err.value) && State() == old(State())
    {
      match DigestInts(setLineStatus[..], d, SetStatusKey)
      case Success(v) => CopyInto(setLineStatus, v); err := None;
      case Failure(e) => err := Some(e);
    }

    method DigestChangeStatus(d: Dict) returns (err: Option<ActionError>)
      requires Valid()
      modifies switchLineStatus
      ensures err.None? ==> ApplyChangeStatus(old(State()), d) == Success(State())
      ensures err.Some? ==> ApplyChangeStatus(old(State()), d) == Failure(err.value) && State() == old(State())
    {
      match DigestBools(switchLineStatus[..], d, ChangeStatusKey)
      case Success(v) => CopyInto(switchLineStatus, v); err := None;
      case Failure(e) => err := Some(e);
    }

    /** The warning loop of `update`: one warning per key of `keys` outside `authorizedKeys`. */
    method UnauthorizedKeyWarnings(keys: seq<string>) returns (warnings: seq<Warning>)
      ensures warnings == UnauthorizedWarnings(keys, authorizedKeys)
    {
      warnings := [];
      var i := 0;
      while i < |keys|
        invariant 0 <= i <= |keys|
        invariant warnings == UnauthorizedWarnings(keys[..i], authorizedKeys)
      {
        assert keys[..i + 1][..i] == keys[..i];
        if keys[i] !in authorizedKeys {
          warnings := warnings + [IgnoredKey(keys[i], authorizedKeys)];
        }
        i := i + 1;
      }
      assert keys[..|keys|] == keys;
    }

    /**
     * `update(dict_)`. On success `outcome` is this action (for chaining);
     * when a digest raises, `outcome` is that error and the action keeps what
     * the earlier digests wrote.
     */
    method Update(dict: Option<Dict>) returns (warnings: seq<Warning>, outcome: Result<TopologyAction, ActionError>)
      requires Valid()
      requires dict.Some? ==> DistinctKeys(dict.value)
      modifies this, setLineStatus, switchLineStatus, setTopoVect, changeBusVect
      ensures Valid()
      ensures attrListVect == old(attrListVect)
      ensures State() == UpdateSpec(old(State()), dict).state
      ensures warnings == UpdateSpec(old(State()), dict).warnings
      ensures outcome == match UpdateSpec(old(State()), dict).error
                         case None => Success(this)
                         case Some(e) => Failure(e)
    {
      ResetVect();
      warnings := [];
      outcome := Success(this);
      if dict.Some? {
        var d := dict.value;
        warnings := UnauthorizedKeyWarnings(Keys(d));
        // the injection digest of the base class is deliberately not called
        var err := DigestSetBus(d);
        if err.Some? { outcome := Failure(err.value); return; }
        err := DigestChangeBus(d);
        if err.Some? { outcome := Failure(err.value); return; }
        err := DigestSetStatus(d);
        if err.Some? { outcome := Failure(err.value); return; }
        err := DigestChangeStatus(d);
        if err.Some? { outcome := Failure(err.value); return; }
      }
    }

    /** `__call__`: guarded query; it changes nothing. */
    method Call() returns (r: Result<Materialized, ActionError>)
      requires Valid()
      ensures r == Materialize(State())
      ensures dictInj != map[] ==> r == Failure(AmbiguousAction(InjectionOnTopologyAction))
      ensures r.Success? ==> r.value.dictInjection == map[]
      ensures r.Success? ==> r.value.setLineStatus == setLineStatus[..]
                             && r.value.switchLineStatus == switchLineStatus[..]
                             && r.value.setTopoVect == setTopoVect[..]
                             && r.value.changeBusVect == changeBusVect[..]
                             && r.value.redispatch == redispatch
    {
      if dictInj != map[] {
        return Failure(AmbiguousAction(InjectionOnTopologyAction));
      }
      var check := CheckForAmbiguity(State());
      if check.Some? {
        return Failure(check.value);
      }
      return Success(Materialized(map[], setLineStatus[..], switchLineStatus[..],
                                  setTopoVect[..], changeBusVect[..], redispatch));
    }

    /** `sample(space_prng)`: resets the action and returns it; the generator is unused. */
    method Sample() returns (res: TopologyAction)
      requires Valid()
      modifies this, setLineStatus, switchLineStatus, setTopoVect, changeBusVect
      ensures Valid()
      ensures res == this
      ensures State() == ResetState(old(State()))
      ensures attrListVect == old(attrListVect)
    {
      Reset();
      res := this;
    }
  }
}
