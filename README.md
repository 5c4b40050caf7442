# TopologyAction — a Dafny model

This project models grid2op's `TopologyAction`. A `TopologyAction` is one
power-grid control command that may only change the topology:
- which lines are forced on or off (`_set_line_status`);
- which lines are toggled (`_switch_line_status`);
- which elements are assigned to a bus (`_set_topo_vect`);
- which elements change bus (`_change_bus_vect`).

The model covers four operations:
- **The constructor** drops `"injection"` and `"redispatch"` from the keys a caller may write. It also fixes `attr_list_vect` to the four topology vectors.
- **`update(dict_)`** always resets the action first. It then emits one warning per key the caller may not write, and runs the four topology digests in a fixed order. It never runs the injection digest.
- **`__call__`** rejects leftover injection content before the generic ambiguity check runs. On success it returns an empty injection dictionary and the stored vectors.
- **`sample`** only resets the action and returns it.

Files:
- `wrappers.dfy`: `Option` and `Result`.
- `action_base.dfy` (module `ActionBase`): the parts of the base class `Action` that `TopologyAction` calls. These are the update dictionary, the error kinds, the value of an action (`ActionState`), `_reset_vect`, the four digests and `_check_for_ambiguity`. The base class is not part of this model, so these definitions are **assumptions**. Each one is marked in a comment, and each is listed below.
- `topology_action.dfy` (module `Topology`): the specification functions of `TopologyAction` (`NarrowKeys`, `UnauthorizedWarnings`, `DigestTopology`, `UpdateSpec`, `Materialize`). It also holds the class `TopologyAction`. The class keeps the four vectors in fixed-size arrays, and its methods are proved against those functions.
- `topology_lemmas.dfy` (module `TopologyLemmas`): properties that relate several calls.

Representation choices:
- A Python dictionary is a sequence of `(key, value)` entries in insertion order, because `update` warns in the order of `dict_.keys()`.
- `warnings.warn` becomes a returned sequence of `Warning` values. Each holds the ignored key and the set of valid keys that the message prints.
- An exception raised by a digest becomes the `Failure` of `Update`'s `outcome`. The action then keeps what the earlier digests wrote, as it does in Python.
- The grid description is reduced to three lengths given at construction: lines, topology slots and generators. The number of generators is the length of the redispatch vector.

Assumptions about the base class `Action` (its source is not part of this model):
- Its initial `authorized_keys` is a constructor parameter (`baseKeys`), so the narrowing is proved for every base key set.
- The four digests read the keys `"set_bus"`, `"change_bus"`, `"set_line_status"` and `"change_line_status"`.
- Digest rule: a missing key or a `None` value leaves the field unchanged. A vector of the field's length replaces the field. Any other value raises `IllegalAction(MalformedValue(key))`. A digest writes only its own field.
- `Action.__init__` (called at `TopologyAction.py:29`) leaves every vector neutral and `_dict_inj` empty. The constructor's `ensures IsNeutral(State())` rests on this.
- `_reset_vect` sets every vector to its neutral value and empties `_dict_inj`. `reset()` is `_reset_vect`. The body of `_reset_vect` is not part of this model.
  - These results rest on this assumption: `UpdateForgetsPriorState`, `UpdateTwiceIsOnce`, `UpdateEmptyIsReset`, `UpdateLeavesUnmentionedNeutral` and `UpdatedPassesInjectionGuard`.
  - Under it, chained updates keep only the content of the last call: `update(d1).update(d2)` equals `update(d2)`. The docstring at `TopologyAction.py:86-87` suggests that chaining accumulates; the model does not promise that.
- `_check_for_ambiguity` checks, in this order:
  1. a line that is both set and switched raises `AmbiguousAction`;
  2. a slot that is both set and changed raises `AmbiguousAction`;
  3. a line-status entry outside {-1, 0, 1}, or a bus below -1, raises `IllegalAction`.

Facts about the code that the model keeps:
- The writable keys are computed from the base class's own key set (`TopologyAction.py:33`). They are not a fixed list of four vector names.
- `update` warns about an unauthorized key but does not remove it before the digests run. Each digest reads its own key from the unfiltered dictionary (`TopologyAction.py:93-103`). An unauthorized key is therefore harmless only because no digest reads it. `ExtraEntryOnlyWarns` states exactly that condition.
- `update` never runs the injection digest (`TopologyAction.py:99`), so an "injection" entry is never read into `_dict_inj`. `InjectionEntryOnlyWarns` states this.
- A consequence of the `_reset_vect` assumption above, which is not a fact about this file alone: the injection guard of `__call__` (`TopologyAction.py:64-65`) cannot fire after an update. The reset at `TopologyAction.py:90` would leave `_dict_inj` empty, and no digest refills it. `UpdatedPassesInjectionGuard` states this. The guard then only matters for injection content set by other means.

## Model

| member | source | states |
|---|---|---|
| Topology.NarrowKeys | grid2op/Action/TopologyAction.py:33 | the writable keys are the base keys minus "injection" and "redispatch": neither name remains and every other base key is kept |
| Topology.TopologyAction.constructor | grid2op/Action/TopologyAction.py:23-36 | after construction the keys are NarrowKeys of the base keys, `attr_list_vect` is the four topology vectors in the source's order, every vector is neutral at the grid's sizes, and there is no injection content |
| Topology.TopologyAction.UnauthorizedKeyWarnings | grid2op/Action/TopologyAction.py:93-97 | the loop over the dictionary's keys yields exactly the warnings of UnauthorizedWarnings: one per unauthorized key, in key order |
| Topology.UnauthorizedWarnings | grid2op/Action/TopologyAction.py:93-97 | the warnings of the loop, built key by key; its own ensures says only that there are at most as many warnings as keys, and what the warnings contain is proved in WarningsSound, WarningsComplete, WarningsUnique and NoWarningsIffAllAuthorized |
| TopologyLemmas.WarningsSound | grid2op/Action/TopologyAction.py:94-97 | every warning names a key of the dictionary that is not writable, and carries the writable key set |
| TopologyLemmas.WarningsComplete | grid2op/Action/TopologyAction.py:93-97 | every key of the dictionary that is not writable gets a warning naming it |
| TopologyLemmas.WarningsUnique | grid2op/Action/TopologyAction.py:93-97 | since a dictionary does not repeat keys, no key is warned about twice; with WarningsComplete, each unauthorized key gets exactly one warning |
| TopologyLemmas.NoWarningsIffAllAuthorized | grid2op/Action/TopologyAction.py:93-97 | there is no warning if and only if every key is writable |
| Topology.DigestTopology | grid2op/Action/TopologyAction.py:99-103 | the digests run in the order set-bus, change-bus, set-status, change-status; the first one that raises gives the error, the fields before it hold their digested values and the fields from it on are unchanged; lengths, injection content and redispatch are never touched |
| Topology.UpdateSpec | grid2op/Action/TopologyAction.py:90-104 | update leaves no injection content, a neutral redispatch vector and the same shape; update(None) is exactly a reset with no warning and no error; for a dictionary the warnings are UnauthorizedWarnings of its keys, and the value and error are those of DigestTopology run on the reset value |
| Topology.TopologyAction.Update | grid2op/Action/TopologyAction.py:70-104 | the new value, the warnings and the raised error are those of UpdateSpec on the old value; on success the action itself is returned for chaining |
| Topology.TopologyAction.ResetVect | grid2op/Action/TopologyAction.py:90 | every vector is back to neutral and the injection content is emptied; keys and lengths are kept |
| Topology.TopologyAction.DigestSetBus | grid2op/Action/TopologyAction.py:100 | the set-bus digest writes `_set_topo_vect` as ApplySetBus says, or raises and changes nothing |
| Topology.TopologyAction.DigestChangeBus | grid2op/Action/TopologyAction.py:101 | the change-bus digest writes `_change_bus_vect` as ApplyChangeBus says, or raises and changes nothing |
| Topology.TopologyAction.DigestSetStatus | grid2op/Action/TopologyAction.py:102 | the set-status digest writes `_set_line_status` as ApplySetStatus says, or raises and changes nothing |
| Topology.TopologyAction.DigestChangeStatus | grid2op/Action/TopologyAction.py:103 | the change-status digest writes `_switch_line_status` as ApplyChangeStatus says, or raises and changes nothing |
| Topology.Materialize | grid2op/Action/TopologyAction.py:64-68 | injection content always gives AmbiguousAction(InjectionOnTopologyAction), before the generic check; otherwise the generic check's error is the result; success holds exactly when there is no injection and no conflict and every value is in its domain, and then the injection component is empty and the vectors are the stored ones |
| Topology.TopologyAction.Call | grid2op/Action/TopologyAction.py:38-68 | the read-only query returns Materialize of the current value; it changes no field, the injection component of a success is empty and the vectors are the current arrays' contents |
| Topology.TopologyAction.Reset | grid2op/Action/TopologyAction.py:121 | reset puts the action back to neutral, keeping keys and lengths |
| Topology.TopologyAction.Sample | grid2op/Action/TopologyAction.py:106-122 | sample returns the action itself after resetting it; no random choice is made |
| ActionBase.ResetState | grid2op/Action/TopologyAction.py:90 | the reset value is neutral and has the same keys and lengths |
| ActionBase.DigestInts | grid2op/Action/TopologyAction.py:100-102 | a "set" field is kept when its key is absent or None and is replaced by a well-sized integer vector; any other value under the key raises MalformedValue naming the key, and the digest raises nothing else |
| ActionBase.DigestBools | grid2op/Action/TopologyAction.py:101-103 | the same rule for a "change" field and boolean vectors: absent or None keeps the field, a well-sized boolean vector replaces it, anything else raises MalformedValue naming the key |
| ActionBase.ApplySetBus | grid2op/Action/TopologyAction.py:100 | set-bus writes only `setTopoVect`, and nothing when its key is absent |
| ActionBase.ApplyChangeBus | grid2op/Action/TopologyAction.py:101 | change-bus writes only `changeBusVect`, and nothing when its key is absent |
| ActionBase.ApplySetStatus | grid2op/Action/TopologyAction.py:102 | set-status writes only `setLineStatus`, and nothing when its key is absent |
| ActionBase.ApplyChangeStatus | grid2op/Action/TopologyAction.py:103 | change-status writes only `switchLineStatus`, and nothing when its key is absent |
| ActionBase.CheckForAmbiguity | grid2op/Action/TopologyAction.py:66 | the generic check passes exactly when no line is both set and switched, no slot is both set and changed and every value is in its domain; it never reports the injection ambiguity |
| ActionBase.Lookup | grid2op/Action/TopologyAction.py:99-103 | looking a key up in the dictionary fails exactly when the key is absent, and otherwise returns a value stored under that key |
| TopologyLemmas.LookupAppendOther | grid2op/Action/TopologyAction.py:93-103 | an entry under one key does not change what any other key looks up |
| TopologyLemmas.DigestsReadOnlyTheirKey | grid2op/Action/TopologyAction.py:100-103 | each digest depends on the dictionary only through its own key |
| TopologyLemmas.DigestTopologyReadsOnlyDigestKeys | grid2op/Action/TopologyAction.py:99-103 | two dictionaries that agree on the four digest keys give the same digested value and error |
| TopologyLemmas.UpdateForgetsPriorState | grid2op/Action/TopologyAction.py:90 | because update resets first, its whole result depends only on the keys and lengths of the prior value, never on its vectors or injection content |
| TopologyLemmas.UpdateTwiceIsOnce | grid2op/Action/TopologyAction.py:90-104 | calling update(d) twice in a row gives the same value, warnings and error as calling it once |
| TopologyLemmas.UpdateEmptyIsReset | grid2op/Action/TopologyAction.py:90-92 | update({}) equals update(None), which is a bare reset with no warning and no error |
| TopologyLemmas.UpdateLeavesUnmentionedNeutral | grid2op/Action/TopologyAction.py:90-103 | each of the four vectors whose key the dictionary does not mention is neutral after update, whatever it held before the call |
| TopologyLemmas.MalformedSetBusStopsBeforeSetStatus | grid2op/Action/TopologyAction.py:100-102 | a malformed "set_bus" entry raises before a valid "set_line_status" entry is written, even when the dictionary lists the status first: the error names "set_bus" and the action stays neutral |
| TopologyLemmas.ExtraEntryOnlyWarns | grid2op/Action/TopologyAction.py:93-103 | an entry under a key no digest reads changes neither the new value nor the error, and adds exactly its own warning when the key is not writable |
| TopologyLemmas.InjectionEntryOnlyWarns | grid2op/Action/TopologyAction.py:31-33 | on a TopologyAction an "injection" entry cannot reach the action's value; it only adds one warning naming it |
| TopologyLemmas.UpdatedPassesInjectionGuard | grid2op/Action/TopologyAction.py:64-65 | after any update the injection guard of `__call__` never fires, since update never digests injections |
| TopologyLemmas.NeutralMaterializes | grid2op/Action/TopologyAction.py:64-68 | a neutral action (fresh or reset) is returned by `__call__` without error and unchanged |
| TopologyLemmas.SetAndSwitchedLineRejected | grid2op/Action/TopologyAction.py:66 | a line both set and switched makes `__call__` raise AmbiguousAction |
| TopologyLemmas.DigestTopologyDict | grid2op/Action/TopologyAction.py:99-103 | a dictionary giving four well-sized vectors is digested into exactly those four fields, with no error |
| TopologyLemmas.UpdateThenCallRoundTrip | grid2op/Action/TopologyAction.py:67-68 | four well-sized, in-domain, conflict-free vectors given to update come back unchanged from `__call__`, with an empty injection component and neutral redispatch; by ExtraEntryOnlyWarns, other keys in the dictionary do not change this |

## Left out

- The base class `Action`: its key set, digest rules, reset and ambiguity check are the assumptions listed above, not its code. Its injection digest and redispatch digest are not modelled. Under a digest key the model accepts only `None` or a vector of the field's length, and rejects any other value with `MalformedValue`; whatever other input forms the base class accepts there are not modelled.
- `warnings.warn` global output: modelled as the returned `Warning` sequence. The formatting of the message text (the Python `repr` of the key set) is not modelled.
- NumPy dtypes and the float `_redispatch` vector: redispatch is an opaque `seq<real>`. It is reset to zeros and passed through; no arithmetic is done on it.
- Array identity: `__call__` returns the action's own arrays (`grid2op/Action/TopologyAction.py:67-68`), so the tuple aliases the action and would see later in-place writes. `Call` returns copies of the arrays' contents. Whether the base class rebinds or overwrites its arrays is not modelled.
- Accumulation over chained updates: the docstring at `grid2op/Action/TopologyAction.py:86-87` says a returned `self` lets `update` calls be chained. Under the `_reset_vect` assumption each call discards what the previous one stored, so the model does not promise that chained calls accumulate.
- `SerializableSpace` / `GridObjects` metadata: reduced to the lengths given to the constructor.
- The `pdb` and `itertools` imports and the unused `space_prng` argument of `sample`.
