/** The operation history of an image stack
    (mantidimaging/core/operation_history/operations.py): one record per
    applied filter, its serialized form stored in the stack's metadata, and
    the replay of a history as partially applied filter functions. */
module Operations {
  import opened Wrappers
  import opened PyRuntime

  // Keys of a serialized history entry and of the stack metadata. They
  // come from the package's const.py, which is not part of this model; the
  // proofs only rely on the four entry keys being distinct.
  const OperationName := "name"
  const OperationArgs := "args"
  const OperationKeywordArgs := "kwargs"
  const OperationDisplayName := "display_name"
  const OperationHistory := "operation_history"
  const OperationNameAxesSwap := "axes_swap"

  /** The four keys of every serialized entry. */
  const EntryKeys: set<string> :=
    {OperationName, OperationArgs, OperationKeywordArgs, OperationDisplayName}

  /** `functools.partial(func, *args, **keywords)`: a function of type F
      with arguments bound to it but not yet called. */
  datatype Partial<F> = Partial(func: F, args: seq<Value>, keywords: map<string, Value>)

  /** `ImageOperation`: the deserialized form of one history item. */
  datatype ImageOperation = ImageOperation(
    filterName: string,
    filterArgs: seq<Value>,
    filterKwargs: map<string, Value>,
    displayName: Option<string>)
  {
    /** The name shown to users: the display name when it is a non-empty
        string, the filter name otherwise (so "" falls back as well). */
    function FriendlyName(): (name: string)
      ensures displayName.Some? && displayName.value != "" ==> name == displayName.value
      ensures displayName == None || displayName == Some("") ==> name == filterName
    {
      if displayName.Some? && displayName.value != "" then displayName.value else filterName
    }

    /** The metadata entry this record is saved as: exactly the four keys,
        a missing display name written as None. */
    function Serialize(): (entry: map<string, Value>)
      ensures entry.Keys == EntryKeys
      ensures entry[OperationName] == VStr(filterName)
      ensures entry[OperationArgs] == VList(filterArgs)
      ensures entry[OperationKeywordArgs] == VDict(filterKwargs)
      ensures entry[OperationDisplayName] == DisplayValue(displayName)
    {
      map[OperationName := VStr(filterName),
          OperationArgs := VList(filterArgs),
          OperationKeywordArgs := VDict(filterKwargs),
          OperationDisplayName := DisplayValue(displayName)]
    }

    /** `to_partial`: looks the filter up by name (KeyError when absent) and
        binds the stored keyword arguments only; the stored positional
        arguments are not bound. */
    function ToPartial<F>(funcs: map<string, F>): (r: Result<Partial<F>, PyError>)
      ensures r.Failure? <==> filterName !in funcs
      ensures r.Failure? ==> r.error == KeyError(filterName)
      ensures r.Success? ==> r.value.func == funcs[filterName]
      ensures r.Success? ==> r.value.args == [] && r.value.keywords == filterKwargs
    {
      if filterName in funcs then Success(Partial(funcs[filterName], [], filterKwargs))
      else Failure(KeyError(filterName))
    }
  }

  function DisplayValue(displayName: Option<string>): Value
  {
    if displayName.Some? then VStr(displayName.value) else VNone
  }

  /** `ImageOperation.deserialize`: the name, args and kwargs keys are
      looked up in that order and a missing one raises KeyError; the display
      name is read with `get`, so a missing one becomes None. An entry whose
      values have the wrong Python type is refused with TypeError. */
  function Deserialize(entry: map<string, Value>): (r: Result<ImageOperation, PyError>)
    ensures OperationName !in entry ==> r == Failure(KeyError(OperationName))
    ensures OperationName in entry && OperationArgs !in entry ==> r == Failure(KeyError(OperationArgs))
    ensures OperationName in entry && OperationArgs in entry && OperationKeywordArgs !in entry
      ==> r == Failure(KeyError(OperationKeywordArgs))
    ensures r.Success? <==> WellFormedEntry(entry)
    ensures r.Success? ==>
      && entry[OperationName] == VStr(r.value.filterName)
      && entry[OperationArgs] == VList(r.value.filterArgs)
      && entry[OperationKeywordArgs] == VDict(r.value.filterKwargs)
      && (OperationDisplayName !in entry ==> r.value.displayName == None)
      && (OperationDisplayName in entry ==> entry[OperationDisplayName] == DisplayValue(r.value.displayName))
  {
    if OperationName !in entry then Failure(KeyError(OperationName))
    else if OperationArgs !in entry then Failure(KeyError(OperationArgs))
    else if OperationKeywordArgs !in entry then Failure(KeyError(OperationKeywordArgs))
    else
      var name, args, kwargs := entry[OperationName], entry[OperationArgs], entry[OperationKeywordArgs];
      var display := if OperationDisplayName in entry then entry[OperationDisplayName] else VNone;
      if !name.VStr? || !args.VList? || !kwargs.VDict? || !(display.VNone? || display.VStr?) then
        Failure(TypeError("malformed history entry"))
      else
        Success(ImageOperation(name.s, args.items, kwargs.entries,
                               if display.VStr? then Some(display.s) else None))
  }

  /** An entry `deserialize` turns into a record. */
  predicate WellFormedEntry(entry: map<string, Value>)
  {
    && OperationName in entry && entry[OperationName].VStr?
    && OperationArgs in entry && entry[OperationArgs].VList?
    && OperationKeywordArgs in entry && entry[OperationKeywordArgs].VDict?
    && (OperationDisplayName in entry ==>
          entry[OperationDisplayName].VNone? || entry[OperationDisplayName].VStr?)
  }

  /** Round trip: deserializing a serialized record gives it back. */
  lemma DeserializeSerialize(op: ImageOperation)
    ensures Deserialize(op.Serialize()) == Success(op)
  {
  }

  /** The other direction: a well-formed entry with exactly the four keys
      is what its record serializes to. */
  lemma SerializeDeserialize(entry: map<string, Value>)
    requires entry.Keys == EntryKeys && WellFormedEntry(entry)
    ensures Deserialize(entry).Success? && Deserialize(entry).value.Serialize() == entry
  {
    var op := Deserialize(entry).value;
    assert op.Serialize().Keys == entry.Keys;
  }

  const NotAMappingMessage := "history item is not a mapping"
  const NotIterablePrefix := "'"
  const NotIterableSuffix := "' object is not iterable"

  /** One item of a history list: it must be a mapping. */
  function DeserializeItem(item: Value): (r: Result<ImageOperation, PyError>)
    ensures item.VDict? ==> r == Deserialize(item.entries)
    ensures !item.VDict? ==> r.Failure?
  {
    if item.VDict? then Deserialize(item.entries) else Failure(TypeError(NotAMappingMessage))
  }

  /** The list comprehension over a history list: one record per item, in
      order, or the error of the first item that cannot be deserialized. */
  function DeserializeAll(items: seq<Value>): (r: Result<seq<ImageOperation>, PyError>)
    ensures r.Success? <==> forall i :: 0 <= i < |items| ==> DeserializeItem(items[i]).Success?
    ensures r.Success? ==> |r.value| == |items|
    ensures r.Success? ==> forall i :: 0 <= i < |items| ==> DeserializeItem(items[i]) == Success(r.value[i])
    ensures r.Failure? ==> exists k :: 0 <= k < |items| && DeserializeItem(items[k]) == Failure(r.error)
                                   && forall i :: 0 <= i < k ==> DeserializeItem(items[i]).Success?
  {
    if |items| == 0 then Success([])
    else
      var head := DeserializeItem(items[0]);
      if head.Failure? then Failure(head.error)
      else
        var tail := DeserializeAll(items[1..]);
        if tail.Failure? then
          ghost var k :| 0 <= k < |items| - 1 && DeserializeItem(items[1..][k]) == Failure(tail.error)
                        && forall i :: 0 <= i < k ==> DeserializeItem(items[1..][i]).Success?;
          assert DeserializeItem(items[k + 1]) == Failure(tail.error);
          Failure(tail.error)
        else
          Success([head.value] + tail.value)
  }

  /** The one-character strings iterating over a str yields. */
  function CharStrings(s: string): (items: seq<Value>)
    ensures |items| == |s|
    ensures forall i :: 0 <= i < |s| ==> items[i] == VStr([s[i]])
  {
    seq(|s|, i requires 0 <= i < |s| => VStr([s[i]]))
  }

  /** `deserialize_metadata`: no history key gives the empty history;
      otherwise the comprehension iterates over whatever the key holds. A
      list or a tuple yields its entries, one record each in order. A str
      yields its characters and a dict its keys; both are strs, which no
      entry can be, so only an empty one gives a history. None, a bool or a
      number is not iterable. */
  function DeserializeMetadata(metadata: map<string, Value>): (r: Result<seq<ImageOperation>, PyError>)
    ensures OperationHistory !in metadata ==> r == Success([])
    ensures OperationHistory in metadata ==>
      var h := metadata[OperationHistory];
      && (h.VList? ==> r == DeserializeAll(h.items))
      && (h.VTuple? ==> r == DeserializeAll(h.elems))
      && (h.VStr? ==> r == DeserializeAll(CharStrings(h.s)))
      && (h.VStr? || h.VDict? ==> (r.Success? <==> !Truthy(h)) && (r.Success? ==> r.value == []))
      && (h.VDict? ==> forall key :: key in h.entries ==> r.Failure? && DeserializeItem(VStr(key)) == Failure(r.error))
      && (h.VNone? || h.VBool? || h.VInt? || h.VFloat? ==>
            r == Failure(TypeError(NotIterablePrefix + TypeName(h) + NotIterableSuffix)))
  {
    if OperationHistory !in metadata then Success([])
    else
      var h := metadata[OperationHistory];
      match h
      case VList(items) => DeserializeAll(items)
      case VTuple(items) => DeserializeAll(items)
      case VStr(chars) =>
        assert chars != "" ==> !DeserializeItem(CharStrings(chars)[0]).Success?;
        DeserializeAll(CharStrings(chars))
      case VDict(entries) =>
        // Every key is a str, so the first one fails whichever it is.
        if entries == map[] then Success([]) else Failure(TypeError(NotAMappingMessage))
      case _ => Failure(TypeError(NotIterablePrefix + TypeName(h) + NotIterableSuffix))
  }

  /** The list a history is stored as in the stack metadata. */
  function SerializeAll(ops: seq<ImageOperation>): (items: seq<Value>)
    ensures |items| == |ops|
    ensures forall i :: 0 <= i < |ops| ==> items[i] == VDict(ops[i].Serialize())
  {
    if |ops| == 0 then [] else [VDict(ops[0].Serialize())] + SerializeAll(ops[1..])
  }

  /** A whole history round-trips through the metadata, order included. */
  lemma DeserializeAllSerializeAll(ops: seq<ImageOperation>)
    ensures DeserializeAll(SerializeAll(ops)) == Success(ops)
  {
    var items := SerializeAll(ops);
    forall i | 0 <= i < |ops| ensures DeserializeItem(items[i]) == Success(ops[i]) {
      DeserializeSerialize(ops[i]);
    }
    assert DeserializeAll(items).value == ops;
  }

  /** The stored history list of a stack's metadata, empty when absent. */
  function HistoryItems(metadata: map<string, Value>): seq<Value>
  {
    if OperationHistory in metadata && metadata[OperationHistory].VList? then metadata[OperationHistory].items
    else []
  }

  /** Appending one serialized record to the stored history (creating the
      list when there is none) appends that record to what
      `deserialize_metadata` reads back. */
  lemma DeserializeMetadataAppend(metadata: map<string, Value>, ops: seq<ImageOperation>, op: ImageOperation)
    requires OperationHistory in metadata ==> metadata[OperationHistory].VList?
    requires DeserializeMetadata(metadata) == Success(ops)
    ensures DeserializeMetadata(metadata[OperationHistory := VList(HistoryItems(metadata) + [VDict(op.Serialize())])])
            == Success(ops + [op])
  {
    var items := HistoryItems(metadata);
    var items' := items + [VDict(op.Serialize())];
    assert DeserializeAll(items) == Success(ops);
    DeserializeSerialize(op);
    var r := DeserializeAll(items');
    assert forall i :: 0 <= i < |items| ==> items'[i] == items[i];
    assert r.Success?;
    assert r.value == ops + [op];
  }

  /** The filter registry as a dict `{f.__name__: f._filter_func}`: every
      registered name is a key, and a name registered twice maps to its
      last registration. */
  function RegistryFuncs<F>(registry: seq<(string, F)>): (funcs: map<string, F>)
    ensures funcs.Keys == RegisteredNames(registry)
    ensures forall i :: 0 <= i < |registry| && LastWithName(registry, i) ==> funcs[registry[i].0] == registry[i].1
  {
    if |registry| == 0 then map[]
    else
      var init := registry[..|registry| - 1];
      var last := registry[|registry| - 1];
      var funcs := RegistryFuncs(init)[last.0 := last.1];
      assert funcs.Keys == RegisteredNames(registry) by {
        assert RegisteredNames(registry) == RegisteredNames(init) + {last.0} by {
          assert forall i :: 0 <= i < |init| ==> init[i] == registry[i];
        }
      }
      assert forall i :: 0 <= i < |registry| && LastWithName(registry, i) ==> funcs[registry[i].0] == registry[i].1 by {
        forall i | 0 <= i < |registry| && LastWithName(registry, i)
          ensures funcs[registry[i].0] == registry[i].1
        {
          if i < |registry| - 1 {
            assert registry[i] == init[i];
            assert LastWithName(init, i);
          }
        }
      }
      funcs
  }

  /** The names a registry lists. */
  function RegisteredNames<F>(registry: seq<(string, F)>): set<string>
  {
    set i | 0 <= i < |registry| :: registry[i].0
  }

  /** Entry i is the last one registered under its name. */
  predicate LastWithName<F>(registry: seq<(string, F)>, i: nat)
    requires i < |registry|
  {
    forall j :: i < j < |registry| ==> registry[j].0 != registry[i].0
  }

  /** The lookup `ops_to_partials` replays against: the built-in axes swap
      merged with the registry, the registry winning on a name clash. */
  function ReplayFuncs<F>(registry: seq<(string, F)>, axesSwap: F): (funcs: map<string, F>)
    ensures funcs.Keys == {OperationNameAxesSwap} + RegisteredNames(registry)
    ensures forall name :: name in RegistryFuncs(registry) ==> funcs[name] == RegistryFuncs(registry)[name]
    ensures OperationNameAxesSwap !in RegistryFuncs(registry) ==> funcs[OperationNameAxesSwap] == axesSwap
  {
    map[OperationNameAxesSwap := axesSwap] + RegistryFuncs(registry)
  }

  /** What consuming a generator gives: the items it yielded, in order,
      and the exception that ended it early, if one did. */
  datatype Generated<T> = Generated(items: seq<T>, raised: Option<PyError>)

  /** `ops_to_partials`: a generator of one partial per recorded operation,
      in history order. Consuming it yields the partials of the operations
      before the first one whose name is unknown; that one raises KeyError
      out of the generator, which then yields nothing more. */
  function OpsToPartials<F>(ops: seq<ImageOperation>, registry: seq<(string, F)>, axesSwap: F)
    : (g: Generated<Partial<F>>)
    ensures |g.items| <= |ops|
    ensures forall i :: 0 <= i < |g.items| ==> ops[i].ToPartial(ReplayFuncs(registry, axesSwap)) == Success(g.items[i])
    ensures g.raised.None? <==> |g.items| == |ops|
    ensures g.raised.Some? ==> ops[|g.items|].ToPartial(ReplayFuncs(registry, axesSwap)) == Failure(g.raised.value)
  {
    if |ops| == 0 then Generated([], None)
    else
      match ops[0].ToPartial(ReplayFuncs(registry, axesSwap))
      case Failure(e) => Generated([], Some(e))
      case Success(p) =>
        var rest := OpsToPartials(ops[1..], registry, axesSwap);
        Generated([p] + rest.items, rest.raised)
  }

  /** A registered filter replays to its last registration, even when it is
      registered under the axes-swap name. */
  lemma ReplayUsesRegistry<F>(registry: seq<(string, F)>, axesSwap: F, i: nat)
    requires i < |registry| && LastWithName(registry, i)
    ensures registry[i].0 in ReplayFuncs(registry, axesSwap)
    ensures ReplayFuncs(registry, axesSwap)[registry[i].0] == registry[i].1
  {
  }
}
