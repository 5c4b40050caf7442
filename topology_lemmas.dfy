/**
 * Properties of TopologyAction's specification functions: the warnings of
 * `update`, its reset-then-merge behaviour, the unreachability of injection
 * state, and what `__call__` returns.
 */
module TopologyLemmas {
  import opened Wrappers
  import opened ActionBase
  import opened Topology

  /** Each warning names a key of `keys` outside `auth` and lists `auth` as the valid keys. */
  predicate SoundWarnings(w: seq<Warning>, keys: seq<string>, auth: set<string>) {
    forall j :: 0 <= j < |w| ==> w[j].key in keys && w[j].key !in auth && w[j].validKeys == auth
  }

  /** No two warnings name the same key. */
  predicate UniqueWarnings(w: seq<Warning>) {
    forall i, j :: 0 <= i < j < |w| ==> w[i].key != w[j].key
  }

  // ---------------------------------------------------------------------------
  // Warnings of update
  // ---------------------------------------------------------------------------

  /** Every warning names a key of the dictionary that is not writable, and lists the writable keys. */
  lemma {:induction false} WarningsSound(keys: seq<string>, auth: set<string>)
    ensures SoundWarnings(UnauthorizedWarnings(keys, auth), keys, auth)
  {
    if keys != [] {
      var init, last := keys[..|keys| - 1], keys[|keys| - 1];
      WarningsSound(init, auth);
      var w := UnauthorizedWarnings(keys, auth);
      var wi := UnauthorizedWarnings(init, auth);
      var tail := if last in auth then [] else [IgnoredKey(last, auth)];
      assert w == wi + tail;
      forall j | 0 <= j < |w|
        ensures w[j].key in keys && w[j].key !in auth && w[j].validKeys == auth
      {
        if j < |wi| {
          assert w[j] == wi[j];
          assert wi[j].key in init && wi[j].key !in auth && wi[j].validKeys == auth;
          var i :| 0 <= i < |init| && init[i] == wi[j].key;
          assert keys[i] == init[i];
        } else {
          assert w[j] == tail[j - |wi|] == IgnoredKey(last, auth);
        }
      }
    }
  }

  /** Every key of the dictionary that is not writable gets a warning. */
  lemma {:induction false} WarningsComplete(keys: seq<string>, auth: set<string>, k: string)
    requires k in keys && k !in auth
    ensures exists j :: 0 <= j < |UnauthorizedWarnings(keys, auth)|
                        && UnauthorizedWarnings(keys, auth)[j] == IgnoredKey(k, auth)
  {
    var init := keys[..|keys| - 1];
    var w := UnauthorizedWarnings(keys, auth);
    var wi := UnauthorizedWarnings(init, auth);
    if keys[|keys| - 1] == k {
      assert w[|w| - 1] == IgnoredKey(k, auth);
    } else {
      assert k in init by {
        var i :| 0 <= i < |keys| && keys[i] == k;
        assert i < |keys| - 1 && init[i] == k;
      }
      WarningsComplete(init, auth, k);
      var j :| 0 <= j < |wi| && wi[j] == IgnoredKey(k, auth);
      assert w[j] == wi[j];
    }
  }

  /** A dictionary never repeats a key, so no key is warned about twice. */
  lemma {:induction false} WarningsUnique(keys: seq<string>, auth: set<string>)
    requires Distinct(keys)
    ensures UniqueWarnings(UnauthorizedWarnings(keys, auth))
  {
    if keys != [] {
      var init, last := keys[..|keys| - 1], keys[|keys| - 1];
      assert Distinct(init);
      WarningsUnique(init, auth);
      WarningsSound(init, auth);
      var w := UnauthorizedWarnings(keys, auth);
      var wi := UnauthorizedWarnings(init, auth);
      var tail := if last in auth then [] else [IgnoredKey(last, auth)];
      assert w == wi + tail;
      assert last !in init;
      forall i, j | 0 <= i < j < |w| ensures w[i].key != w[j].key {
        assert w[i] == wi[i];
        if j < |wi| {
          assert w[j] == wi[j];
        } else {
          assert w[j] == tail[j - |wi|] && w[j].key == last;
          assert wi[i].key in init;
        }
      }
    }
  }

  /** No warning at all exactly when every key of the dictionary is writable. */
  lemma {:induction false} NoWarningsIffAllAuthorized(keys: seq<string>, auth: set<string>)
    ensures UnauthorizedWarnings(keys, auth) == [] <==> forall k :: k in keys ==> k in auth
  {
    if keys != [] {
      var init := keys[..|keys| - 1];
      NoWarningsIffAllAuthorized(init, auth);
      assert forall k :: k in keys <==> k in init || k == keys[|keys| - 1];
    }
  }

  // ---------------------------------------------------------------------------
  // Dictionaries
  // ---------------------------------------------------------------------------

  /** Adding an entry under `k` does not change what any other key looks up. */
  lemma {:induction false} LookupAppendOther(d: Dict, k: string, v: Value, key: string)
    requires key != k
    ensures Lookup(d + [(k, v)], key) == Lookup(d, key)
  {
    if d != [] {
      assert (d + [(k, v)])[1..] == d[1..] + [(k, v)];
      LookupAppendOther(d[1..], k, v, key);
    }
  }

  lemma KeysAppend(d: Dict, k: string, v: Value)
    ensures Keys(d + [(k, v)]) == Keys(d) + [k]
  {
  }

  // ---------------------------------------------------------------------------
  // update: reset, then merge
  // ---------------------------------------------------------------------------

  /** The two dictionaries store the same thing (or nothing) under each of the four digest keys. */
  predicate AgreeOnDigestKeys(d1: Dict, d2: Dict) {
    && Lookup(d1, SetBusKey) == Lookup(d2, SetBusKey)
    && Lookup(d1, ChangeBusKey) == Lookup(d2, ChangeBusKey)
    && Lookup(d1, SetStatusKey) == Lookup(d2, SetStatusKey)
    && Lookup(d1, ChangeStatusKey) == Lookup(d2, ChangeStatusKey)
  }

  /** Each digest reads the dictionary only through its own key. */
  lemma DigestsReadOnlyTheirKey(s: ActionState, d1: Dict, d2: Dict)
    requires AgreeOnDigestKeys(d1, d2)
    ensures DigestInts(s.setTopoVect, d1, SetBusKey) == DigestInts(s.setTopoVect, d2, SetBusKey)
    ensures DigestBools(s.changeBusVect, d1, ChangeBusKey) == DigestBools(s.changeBusVect, d2, ChangeBusKey)
    ensures DigestInts(s.setLineStatus, d1, SetStatusKey) == DigestInts(s.setLineStatus, d2, SetStatusKey)
    ensures DigestBools(s.switchLineStatus, d1, ChangeStatusKey) == DigestBools(s.switchLineStatus, d2, ChangeStatusKey)
  {
  }

  /** The four digests read the dictionary only through the four digest keys. */
  lemma DigestTopologyReadsOnlyDigestKeys(s: ActionState, d1: Dict, d2: Dict)
    requires AgreeOnDigestKeys(d1, d2)
    ensures DigestTopology(s, d1) == DigestTopology(s, d2)
  {
    DigestsReadOnlyTheirKey(s, d1, d2);
    assert ApplySetBus(s, d1) == ApplySetBus(s, d2);
    if ApplySetBus(s, d1).Success? {
      var s1 := ApplySetBus(s, d1).value;
      DigestsReadOnlyTheirKey(s1, d1, d2);
      assert ApplyChangeBus(s1, d1) == ApplyChangeBus(s1, d2);
      if ApplyChangeBus(s1, d1).Success? {
        var s2 := ApplyChangeBus(s1, d1).value;
        DigestsReadOnlyTheirKey(s2, d1, d2);
        assert ApplySetStatus(s2, d1) == ApplySetStatus(s2, d2);
        if ApplySetStatus(s2, d1).Success? {
          var s3 := ApplySetStatus(s2, d1).value;
          DigestsReadOnlyTheirKey(s3, d1, d2);
          assert ApplyChangeStatus(s3, d1) == ApplyChangeStatus(s3, d2);
        }
      }
    }
  }

  /**
   * update always resets first: its outcome does not depend on the vectors
   * or the injection content held before the call.
   */
  lemma UpdateForgetsPriorState(s1: ActionState, s2: ActionState, dict: Option<Dict>)
    requires s1.SameShape(s2)
    ensures UpdateSpec(s1, dict) == UpdateSpec(s2, dict)
  {
  }

  /** Calling update(d) twice in a row leaves the same value as calling it once. */
  lemma UpdateTwiceIsOnce(s: ActionState, dict: Option<Dict>)
    ensures UpdateSpec(UpdateSpec(s, dict).state, dict) == UpdateSpec(s, dict)
  {
    UpdateForgetsPriorState(UpdateSpec(s, dict).state, s, dict);
  }

  /** update({}) is the same as update(None): a bare reset, no warning, no error. */
  lemma UpdateEmptyIsReset(s: ActionState)
    ensures UpdateSpec(s, Some([])) == UpdateSpec(s, None)
    ensures UpdateSpec(s, None) == UpdateResult(ResetState(s), [], None)
  {
    assert Keys([]) == [];
  }

  /** A vector whose key the dictionary does not mention is neutral after update. */
  lemma UpdateLeavesUnmentionedNeutral(s: ActionState, d: Dict)
    ensures var t := UpdateSpec(s, Some(d)).state;
      && (SetStatusKey !in Keys(d) ==> forall i :: 0 <= i < |t.setLineStatus| ==> t.setLineStatus[i] == 0)
      && (ChangeStatusKey !in Keys(d) ==> forall i :: 0 <= i < |t.switchLineStatus| ==> !t.switchLineStatus[i])
      && (SetBusKey !in Keys(d) ==> forall i :: 0 <= i < |t.setTopoVect| ==> t.setTopoVect[i] == 0)
      && (ChangeBusKey !in Keys(d) ==> forall i :: 0 <= i < |t.changeBusVect| ==> !t.changeBusVect[i])
  {
  }

  /**
   * The digests run in a fixed order and the first to raise stops update: a
   * malformed "set_bus" entry raises before a valid "set_line_status" entry
   * is written, whatever order the dictionary lists them in.
   */
  lemma MalformedSetBusStopsBeforeSetStatus(s: ActionState, status: seq<int>, bad: seq<bool>)
    requires |status| == |s.setLineStatus|
    ensures var u := UpdateSpec(s, Some([(SetStatusKey, IntVector(status)), (SetBusKey, BoolVector(bad))]));
      && u.error == Some(IllegalAction(MalformedValue(SetBusKey)))
      && u.state == ResetState(s)
  {
    var d := [(SetStatusKey, IntVector(status)), (SetBusKey, BoolVector(bad))];
    assert Lookup(d, SetBusKey) == Lookup(d[1..], SetBusKey) == Some(BoolVector(bad));
  }

  /**
   * An entry under a key no digest reads (an unauthorized key such as
   * "injection" among them) changes neither the resulting value nor the
   * error; it only adds its warning when the key is not writable.
   */
  lemma {:induction false} ExtraEntryOnlyWarns(s: ActionState, d: Dict, k: string, v: Value)
    requires k !in DigestKeys
    requires k !in Keys(d)
    ensures var before := UpdateSpec(s, Some(d));
      var after := UpdateSpec(s, Some(d + [(k, v)]));
      && after.state == before.state
      && after.error == before.error
      && after.warnings == before.warnings
           + (if k in s.authorizedKeys then [] else [IgnoredKey(k, s.authorizedKeys)])
  {
    LookupAppendOther(d, k, v, SetBusKey);
    LookupAppendOther(d, k, v, ChangeBusKey);
    LookupAppendOther(d, k, v, SetStatusKey);
    LookupAppendOther(d, k, v, ChangeStatusKey);
    DigestTopologyReadsOnlyDigestKeys(ResetState(s), d + [(k, v)], d);
    KeysAppend(d, k, v);
    var keys := Keys(d) + [k];
    assert keys[..|keys| - 1] == Keys(d);
  }

  /** An "injection" entry given to a TopologyAction only produces a warning naming it. */
  lemma InjectionEntryOnlyWarns(base: set<string>, s: ActionState, d: Dict, v: Value)
    requires s.authorizedKeys == NarrowKeys(base)
    requires InjectionKey !in Keys(d)
    ensures var before := UpdateSpec(s, Some(d));
      var after := UpdateSpec(s, Some(d + [(InjectionKey, v)]));
      && after.state == before.state
      && after.error == before.error
      && after.warnings == before.warnings + [IgnoredKey(InjectionKey, s.authorizedKeys)]
  {
    ExtraEntryOnlyWarns(s, d, InjectionKey, v);
  }

  // ---------------------------------------------------------------------------
  // __call__
  // ---------------------------------------------------------------------------

  /** After any update, __call__'s injection guard does not fire. */
  lemma UpdatedPassesInjectionGuard(s: ActionState, dict: Option<Dict>)
    requires s.WellShaped()
    ensures UpdateSpec(s, dict).state.WellShaped()
    ensures Materialize(UpdateSpec(s, dict).state) != Failure(AmbiguousAction(InjectionOnTopologyAction))
  {
  }

  /** A neutral action (a fresh or reset one) is returned by __call__ as it is. */
  lemma NeutralMaterializes(s: ActionState)
    requires s.WellShaped() && IsNeutral(s)
    ensures Materialize(s) == Success(Materialized(map[], s.setLineStatus, s.switchLineStatus,
                                                   s.setTopoVect, s.changeBusVect, s.redispatch))
  {
    assert !LineConflict(s);
    assert !BusConflict(s);
  }

  /** A line both set and switched is rejected as ambiguous. */
  lemma SetAndSwitchedLineRejected(s: ActionState, i: nat)
    requires s.WellShaped() && s.dictInj == map[]
    requires i < |s.setLineStatus| && s.setLineStatus[i] != 0 && s.switchLineStatus[i]
    ensures Materialize(s) == Failure(AmbiguousAction(LineStatusSetAndSwitched))
  {
  }

  /** The dictionary that gives all four topology vectors. */
  function TopologyDict(setStatus: seq<int>, switchStatus: seq<bool>,
                        setBus: seq<int>, changeBus: seq<bool>): (d: Dict)
  {
    [(SetBusKey, IntVector(setBus)), (ChangeBusKey, BoolVector(changeBus)),
     (SetStatusKey, IntVector(setStatus)), (ChangeStatusKey, BoolVector(switchStatus))]
  }

  /** Each digest key of TopologyDict looks up the vector stored under it. */
  lemma TopologyDictLookups(setStatus: seq<int>, switchStatus: seq<bool>,
                            setBus: seq<int>, changeBus: seq<bool>)
    ensures var d := TopologyDict(setStatus, switchStatus, setBus, changeBus);
      && Lookup(d, SetBusKey) == Some(IntVector(setBus))
      && Lookup(d, ChangeBusKey) == Some(BoolVector(changeBus))
      && Lookup(d, SetStatusKey) == Some(IntVector(setStatus))
      && Lookup(d, ChangeStatusKey) == Some(BoolVector(switchStatus))
  {
    var d := TopologyDict(setStatus, switchStatus, setBus, changeBus);
    var tail := d[1..][1..];
    assert tail == [(SetStatusKey, IntVector(setStatus)), (ChangeStatusKey, BoolVector(switchStatus))];
    assert Lookup(d, SetStatusKey) == Lookup(tail, SetStatusKey);
    assert Lookup(d, ChangeStatusKey) == Lookup(tail, ChangeStatusKey);
  }

  /** Well-sized vectors given in TopologyDict are digested into the four fields as they are. */
  lemma DigestTopologyDict(r0: ActionState, setStatus: seq<int>, switchStatus: seq<bool>,
                           setBus: seq<int>, changeBus: seq<bool>)
    requires |setStatus| == |r0.setLineStatus| && |switchStatus| == |r0.switchLineStatus|
    requires |setBus| == |r0.setTopoVect| && |changeBus| == |r0.changeBusVect|
    ensures DigestTopology(r0, TopologyDict(setStatus, switchStatus, setBus, changeBus))
            == (r0.(setTopoVect := setBus, changeBusVect := changeBus,
                    setLineStatus := setStatus, switchLineStatus := switchStatus), None)
  {
    var d := TopologyDict(setStatus, switchStatus, setBus, changeBus);
    TopologyDictLookups(setStatus, switchStatus, setBus, changeBus);
    var s1 := r0.(setTopoVect := setBus);
    assert ApplySetBus(r0, d) == Success(s1);
    var s2 := s1.(changeBusVect := changeBus);
    assert ApplyChangeBus(s1, d) == Success(s2);
    var s3 := s2.(setLineStatus := setStatus);
    assert ApplySetStatus(s2, d) == Success(s3);
    assert ApplyChangeStatus(s3, d) == Success(s3.(switchLineStatus := switchStatus));
  }

  /**
   * Round trip: an update giving all four vectors, of the right lengths, in
   * their domains and without conflicts, is returned by __call__ unchanged.
   * (By ExtraEntryOnlyWarns, further entries under other keys change nothing.)
   */
  lemma UpdateThenCallRoundTrip(s: ActionState, setStatus: seq<int>, switchStatus: seq<bool>,
                                setBus: seq<int>, changeBus: seq<bool>)
    requires s.WellShaped()
    requires |setStatus| == |switchStatus| == |s.setLineStatus|
    requires |setBus| == |changeBus| == |s.setTopoVect|
    requires forall i :: 0 <= i < |setStatus| ==> -1 <= setStatus[i] <= 1 && (setStatus[i] != 0 ==> !switchStatus[i])
    requires forall i :: 0 <= i < |setBus| ==> -1 <= setBus[i] && (setBus[i] != 0 ==> !changeBus[i])
    ensures var u := UpdateSpec(s, Some(TopologyDict(setStatus, switchStatus, setBus, changeBus)));
      && u.error == None
      && Materialize(u.state)
         == Success(Materialized(map[], setStatus, switchStatus, setBus, changeBus,
                                 seq(|s.redispatch|, _ => 0.0)))
  {
    var r0 := ResetState(s);
    DigestTopologyDict(r0, setStatus, switchStatus, setBus, changeBus);
    var t := r0.(setTopoVect := setBus, changeBusVect := changeBus,
                 setLineStatus := setStatus, switchLineStatus := switchStatus);
    assert UpdateSpec(s, Some(TopologyDict(setStatus, switchStatus, setBus, changeBus))).state == t;
    assert !LineConflict(t);
    assert !BusConflict(t);
  }
}
