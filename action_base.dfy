/**
 * The parts of grid2op's base class `Action` that `TopologyAction` calls:
 * the shape of an update dictionary, the error kinds, the state of an action,
 * `_reset_vect`, the four topology digests and `_check_for_ambiguity`.
 *
 * The base class itself is not part of this model. The definitions below
 * reset every vector to its neutral value, let each digest write its own
 * field only, and check the vectors in a way that may fail; each rule that
 * goes further than that is an ASSUMPTION and is marked as one.
 */
module ActionBase {
  import opened Wrappers

  /** A value a caller may store under a key of an update dictionary. */
  datatype Value =
    | NoneValue                                        // Python `None`
    | IntVector(ints: seq<int>)                        // a vector for a "set" field
    | BoolVector(bools: seq<bool>)                     // a vector for a "change" field
    | InjectionValue(entries: map<string, seq<real>>)  // injection content, opaque here

  /**
   * A Python dictionary, in its insertion order (the order `dict_.keys()`
   * enumerates). A real dictionary never repeats a key; see DistinctKeys.
   */
  type Dict = seq<(string, Value)>

  /** The keys of `d`, in insertion order. */
  function Keys(d: Dict): (ks: seq<string>)
    ensures |ks| == |d|
    ensures forall i :: 0 <= i < |d| ==> ks[i] == d[i].0
  {
    seq(|d|, i requires 0 <= i < |d| => d[i].0)
  }

  /** No string occurs twice in `keys`. */
  predicate Distinct(keys: seq<string>) {
    forall i, j :: 0 <= i < j < |keys| ==> keys[i] != keys[j]
  }

  /** A dictionary's keys are distinct. */
  predicate DistinctKeys(d: Dict) {
    Distinct(Keys(d))
  }

  /** `dict_[key]` when `key in dict_`, and None otherwise. */
  function Lookup(d: Dict, key: string): (r: Option<Value>)
    ensures r.None? <==> key !in Keys(d)
    ensures r.Some? ==> (key, r.value) in d
  {
    if d == [] then None
    else if d[0].0 == key then Some(d[0].1)
    else
      assert Keys(d) == [d[0].0] + Keys(d[1..]);
      Lookup(d[1..], key)
  }

  // Names of keys. "injection" and "redispatch" are named in grid2op's
  // TopologyAction.py (the narrowing at line 33);
  // ASSUMPTION: the four keys the topology digests read follow grid2op's
  // naming ("set_bus", "change_bus", "set_line_status", "change_line_status").
  const InjectionKey: string := "injection"
  const RedispatchKey: string := "redispatch"
  const SetBusKey: string := "set_bus"
  const ChangeBusKey: string := "change_bus"
  const SetStatusKey: string := "set_line_status"
  const ChangeStatusKey: string := "change_line_status"

  /** The keys that some digest run by TopologyAction.update reads. */
  const DigestKeys: set<string> := {SetBusKey, ChangeBusKey, SetStatusKey, ChangeStatusKey}

  /** Why a command is ambiguous. */
  datatype Ambiguity =
    | InjectionOnTopologyAction   // injection content on an action that forbids it
    | LineStatusSetAndSwitched    // a line both set and switched
    | BusSetAndChanged            // a topology slot both set and changed

  /** Why a command is illegal. */
  datatype Illegal =
    | MalformedValue(key: string) // a value that cannot be digested into its field
    | LineStatusOutOfRange        // a set-line-status entry outside {-1, 0, 1}
    | BusOutOfRange               // a set-bus entry below -1

  /** The exceptions raised by the action code: `AmbiguousAction` and `IllegalAction`. */
  datatype ActionError =
    | AmbiguousAction(ambiguity: Ambiguity)
    | IllegalAction(illegal: Illegal)

  /**
   * The value of one action: its writable keys, its injection dictionary
   * `_dict_inj`, its four topology vectors and its redispatch vector.
   */
  datatype ActionState = ActionState(
    authorizedKeys: set<string>,
    dictInj: map<string, seq<real>>,
    setLineStatus: seq<int>,
    switchLineStatus: seq<bool>,
    setTopoVect: seq<int>,
    changeBusVect: seq<bool>,
    redispatch: seq<real>)
  {
    /** One entry per line in both line vectors, one per slot in both topology vectors. */
    predicate WellShaped() {
      |setLineStatus| == |switchLineStatus| && |setTopoVect| == |changeBusVect|
    }

    /** Same writable keys and same vector lengths: same grid, same action class. */
    predicate SameShape(other: ActionState) {
      authorizedKeys == other.authorizedKeys
      && |setLineStatus| == |other.setLineStatus|
      && |switchLineStatus| == |other.switchLineStatus|
      && |setTopoVect| == |other.setTopoVect|
      && |changeBusVect| == |other.changeBusVect|
      && |redispatch| == |other.redispatch|
    }
  }

  /** Every vector holds its "do nothing" value and there is no injection content. */
  predicate IsNeutral(s: ActionState) {
    && s.dictInj == map[]
    && (forall i :: 0 <= i < |s.setLineStatus| ==> s.setLineStatus[i] == 0)
    && (forall i :: 0 <= i < |s.switchLineStatus| ==> !s.switchLineStatus[i])
    && (forall i :: 0 <= i < |s.setTopoVect| ==> s.setTopoVect[i] == 0)
    && (forall i :: 0 <= i < |s.changeBusVect| ==> !s.changeBusVect[i])
    && (forall i :: 0 <= i < |s.redispatch| ==> s.redispatch[i] == 0.0)
  }

  /**
   * `_reset_vect`: every field back to neutral and `_dict_inj` emptied; the
   * keys and the vector lengths are kept.
   */
  function ResetState(s: ActionState): (r: ActionState)
    ensures IsNeutral(r)
    ensures r.SameShape(s)
  {
    s.(dictInj := map[],
       setLineStatus := seq(|s.setLineStatus|, _ => 0),
       switchLineStatus := seq(|s.switchLineStatus|, _ => false),
       setTopoVect := seq(|s.setTopoVect|, _ => 0),
       changeBusVect := seq(|s.changeBusVect|, _ => false),
       redispatch := seq(|s.redispatch|, _ => 0.0))
  }

  /**
   * Digest rule of a "set" field. ASSUMPTION: an absent key or a `None`
   * value leaves the field as it is, an integer vector of the field's length
   * replaces it, and anything else cannot be digested.
   */
  function DigestInts(current: seq<int>, d: Dict, key: string): (r: Result<seq<int>, ActionError>)
    ensures key !in Keys(d) ==> r == Success(current)
    ensures r.Success? ==> |r.value| == |current|
    ensures Lookup(d, key) == Some(NoneValue) ==> r == Success(current)
    ensures Lookup(d, key).Some? && Lookup(d, key).value.IntVector? && |Lookup(d, key).value.ints| == |current|
            ==> r == Success(Lookup(d, key).value.ints)
    ensures r.Success? ==> r.value == current || Lookup(d, key) == Some(IntVector(r.value))
    ensures r.Failure? ==> key in Keys(d) && r.error == IllegalAction(MalformedValue(key))
    ensures Lookup(d, key).Some? && Lookup(d, key).value != NoneValue
            && !(Lookup(d, key).value.IntVector? && |Lookup(d, key).value.ints| == |current|)
            ==> r == Failure(IllegalAction(MalformedValue(key)))
  {
    match Lookup(d, key)
    case None => Success(current)
    case Some(NoneValue) => Success(current)
    case Some(IntVector(v)) =>
      if |v| == |current| then Success(v) else Failure(IllegalAction(MalformedValue(key)))
    case Some(_) => Failure(IllegalAction(MalformedValue(key)))
  }

  /** Digest rule of a "change" field; the same ASSUMPTION as DigestInts, for boolean vectors. */
  function DigestBools(current: seq<bool>, d: Dict, key: string): (r: Result<seq<bool>, ActionError>)
    ensures key !in Keys(d) ==> r == Success(current)
    ensures r.Success? ==> |r.value| == |current|
    ensures Lookup(d, key) == Some(NoneValue) ==> r == Success(current)
    ensures Lookup(d, key).Some? && Lookup(d, key).value.BoolVector? && |Lookup(d, key).value.bools| == |current|
            ==> r == Success(Lookup(d, key).value.bools)
    ensures r.Success? ==> r.value == current || Lookup(d, key) == Some(BoolVector(r.value))
    ensures r.Failure? ==> key in Keys(d) && r.error == IllegalAction(MalformedValue(key))
    ensures Lookup(d, key).Some? && Lookup(d, key).value != NoneValue
            && !(Lookup(d, key).value.BoolVector? && |Lookup(d, key).value.bools| == |current|)
            ==> r == Failure(IllegalAction(MalformedValue(key)))
  {
    match Lookup(d, key)
    case None => Success(current)
    case Some(NoneValue) => Success(current)
    case Some(BoolVector(v)) =>
      if |v| == |current| then Success(v) else Failure(IllegalAction(MalformedValue(key)))
    case Some(_) => Failure(IllegalAction(MalformedValue(key)))
  }

  /** `_digest_setbus`: writes `setTopoVect` only, from the "set_bus" entry only. */
  function ApplySetBus(s: ActionState, d: Dict): (r: Result<ActionState, ActionError>)
    ensures r.Success? ==> r.value == s.(setTopoVect := r.value.setTopoVect)
    ensures r.Success? ==> r.value.SameShape(s)
    ensures SetBusKey !in Keys(d) ==> r == Success(s)
  {
    match DigestInts(s.setTopoVect, d, SetBusKey)
    case Success(v) => Success(s.(setTopoVect := v))
    case Failure(e) => Failure(e)
  }

  /** `_digest_change_bus`: writes `changeBusVect` only, from the "change_bus" entry only. */
  function ApplyChangeBus(s: ActionState, d: Dict): (r: Result<ActionState, ActionError>)
    ensures r.Success? ==> r.value == s.(changeBusVect := r.value.changeBusVect)
    ensures r.Success? ==> r.value.SameShape(s)
    ensures ChangeBusKey !in Keys(d) ==> r == Success(s)
  {
    match DigestBools(s.changeBusVect, d, ChangeBusKey)
    case Success(v) => Success(s.(changeBusVect := v))
    case Failure(e) => Failure(e)
  }

  /** `_digest_set_status`: writes `setLineStatus` only, from the "set_line_status" entry only. */
  function ApplySetStatus(s: ActionState, d: Dict): (r: Result<ActionState, ActionError>)
    ensures r.Success? ==> r.value == s.(setLineStatus := r.value.setLineStatus)
    ensures r.Success? ==> r.value.SameShape(s)
    ensures SetStatusKey !in Keys(d) ==> r == Success(s)
  {
    match DigestInts(s.setLineStatus, d, SetStatusKey)
    case Success(v) => Success(s.(setLineStatus := v))
    case Failure(e) => Failure(e)
  }

  /** `_digest_change_status`: writes `switchLineStatus` only, from the "change_line_status" entry only. */
  function ApplyChangeStatus(s: ActionState, d: Dict): (r: Result<ActionState, ActionError>)
    ensures r.Success? ==> r.value == s.(switchLineStatus := r.value.switchLineStatus)
    ensures r.Success? ==> r.value.SameShape(s)
    ensures ChangeStatusKey !in Keys(d) ==> r == Success(s)
  {
    match DigestBools(s.switchLineStatus, d, ChangeStatusKey)
    case Success(v) => Success(s.(switchLineStatus := v))
    case Failure(e) => Failure(e)
  }

  /** Some line is both given a status and switched. */
  predicate LineConflict(s: ActionState)
    requires s.WellShaped()
  {
    exists i :: 0 <= i < |s.setLineStatus| && s.setLineStatus[i] != 0 && s.switchLineStatus[i]
  }

  /** Some topology slot is both assigned a bus and changed. */
  predicate BusConflict(s: ActionState)
    requires s.WellShaped()
  {
    exists i :: 0 <= i < |s.setTopoVect| && s.setTopoVect[i] != 0 && s.changeBusVect[i]
  }

  /** Every set-line-status entry is -1, 0 or 1. */
  predicate LineStatusInDomain(s: ActionState) {
    forall i :: 0 <= i < |s.setLineStatus| ==> -1 <= s.setLineStatus[i] <= 1
  }

  /** Every set-bus entry is at least -1. */
  predicate BusInDomain(s: ActionState) {
    forall i :: 0 <= i < |s.setTopoVect| ==> -1 <= s.setTopoVect[i]
  }

  /** Every value of the set vectors lies in its domain. */
  predicate InDomain(s: ActionState) {
    LineStatusInDomain(s) && BusInDomain(s)
  }

  /**
   * `_check_for_ambiguity`, the generic check on the topology vectors.
   * ASSUMPTION: it rejects a line both set and switched, then a slot both set
   * and changed (both AmbiguousAction), then an out-of-domain value
   * (IllegalAction), in that order.
   */
  function CheckForAmbiguity(s: ActionState): (r: Option<ActionError>)
    requires s.WellShaped()
    ensures r.None? <==> !LineConflict(s) && !BusConflict(s) && InDomain(s)
    ensures LineConflict(s) ==> r == Some(AmbiguousAction(LineStatusSetAndSwitched))
    ensures r != Some(AmbiguousAction(InjectionOnTopologyAction))
  {
    if LineConflict(s) then Some(AmbiguousAction(LineStatusSetAndSwitched))
    else if BusConflict(s) then Some(AmbiguousAction(BusSetAndChanged))
    else if !LineStatusInDomain(s) then
      Some(IllegalAction(LineStatusOutOfRange))
    else if !BusInDomain(s) then
      Some(IllegalAction(BusOutOfRange))
    else None
  }
}
