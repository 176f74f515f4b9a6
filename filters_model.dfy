/** The model behind the filters window
    (mantidimaging/gui/windows/filters/model.py): which filter is selected
    with which widget values, and applying it to a stack so that exactly one
    history record is kept per successful application. */
module FiltersModel {
  import opened Wrappers
  import opened PyRuntime
  import Operations

  const MissingParametersMessage := "Not all required parameters specified"

  /** `ensure_tuple`: a tuple is returned as it is, any other value is
      wrapped in a tuple of one element. */
  function EnsureTuple(v: Value): (t: Value)
    ensures t.VTuple?
    ensures v.VTuple? <==> t == v
    ensures !v.VTuple? ==> t.elems == [v]
  {
    if v.VTuple? then v else VTuple([v])
  }

  /** Wrapping is idempotent: a second `ensure_tuple` changes nothing. */
  lemma EnsureTupleIdempotent(v: Value)
    ensures EnsureTuple(EnsureTuple(v)) == EnsureTuple(v)
  {
  }

  /** One entry of the filter registry (a BaseFilter subclass, which is not
      part of this model): its class name, its display name, its check of
      the widget values and the partial it builds from them. F stands for
      the filter functions. */
  datatype Filter<F> = Filter(
    className: string,
    filterName: string,
    validateExecuteKwargs: map<string, Value> -> bool,
    executeWrapper: map<string, Value> -> Operations.Partial<F>)

  /** What calling a filter function on a stack leaves behind: the sample
      as the function left it, and the exception it raised, if any. The
      function works on the stack in place, so one that raises keeps what it
      had already written; its return value is discarded. */
  datatype RunEffect = RunEffect(sample: seq<Slice>, raised: Option<PyError>)

  /** The image stack being processed (mantidimaging.core.data.Images, not
      part of this model): the sample volume and the metadata dictionary
      that carries the operation history. */
  class Images {
    var sample: seq<Slice>
    var metadata: map<string, Value>

    /** The stored history, if any, is a list. */
    ghost predicate Valid()
      reads this
    {
      Operations.OperationHistory in metadata ==> metadata[Operations.OperationHistory].VList?
    }

    constructor (sample: seq<Slice>, metadata: map<string, Value>)
      requires Operations.OperationHistory in metadata ==> metadata[Operations.OperationHistory].VList?
      ensures Valid() && this.sample == sample && this.metadata == metadata
    {
      this.sample := sample;
      this.metadata := metadata;
    }

    /** `record_operation`: appends the serialized record to the history
        list, creating the list when the metadata has none. */
    method RecordOperation(op: Operations.ImageOperation)
      requires Valid()
      modifies this`metadata
      ensures Valid()
      ensures metadata == old(metadata)[Operations.OperationHistory :=
                VList(Operations.HistoryItems(old(metadata)) + [VDict(op.Serialize())])]
    {
      var items := Operations.HistoryItems(metadata);
      metadata := metadata[Operations.OperationHistory := VList(items + [VDict(op.Serialize())])];
    }
  }

  /** The keyword arguments a call of partial p with extra keywords kw
      runs with: the call's keywords override the bound ones. */
  function CallKeywords<F>(p: Operations.Partial<F>, kw: map<string, Value>): (effective: map<string, Value>)
    ensures effective.Keys == p.keywords.Keys + kw.Keys
    ensures forall k :: k in kw ==> effective[k] == kw[k]
    ensures forall k :: k in p.keywords && k !in kw ==> effective[k] == p.keywords[k]
  {
    p.keywords + kw
  }

  /** The record `apply_filter` keeps: the filter's unqualified class name,
      the bound positional arguments, the bound keywords with `progress`
      added and the stack parameters merged over them, and the filter's
      display name. */
  function RecordedOperation<F>(filter: Filter<F>, widgetKwargs: map<string, Value>,
                                stackParams: map<string, Value>, progress: Value)
    : (op: Operations.ImageOperation)
    ensures op.filterName == filter.className
    ensures op.displayName == Some(filter.filterName)
    ensures op.filterArgs == filter.executeWrapper(widgetKwargs).args
    ensures op.filterKwargs == CallKeywords(BoundWithProgress(filter.executeWrapper(widgetKwargs), progress), stackParams)
  {
    var bound := BoundWithProgress(filter.executeWrapper(widgetKwargs), progress);
    Operations.ImageOperation(filter.className, bound.args, bound.keywords + stackParams, Some(filter.filterName))
  }

  /** `exec_func.keywords["progress"] = progress` */
  function BoundWithProgress<F>(p: Operations.Partial<F>, progress: Value): (q: Operations.Partial<F>)
    ensures q.func == p.func && q.args == p.args
    ensures q.keywords == p.keywords["progress" := progress]
  {
    Operations.Partial(p.func, p.args, p.keywords["progress" := progress])
  }

  /** The recorded keywords are exactly those the filter ran with, and the
      stack parameters always take precedence over the widget values. */
  lemma RecordedKwargsAreEffective<F>(filter: Filter<F>, widgetKwargs: map<string, Value>,
                                      stackParams: map<string, Value>, progress: Value)
    ensures var op := RecordedOperation(filter, widgetKwargs, stackParams, progress);
            && op.filterKwargs.Keys == filter.executeWrapper(widgetKwargs).keywords.Keys + {"progress"} + stackParams.Keys
            && (forall k :: k in stackParams ==> op.filterKwargs[k] == stackParams[k])
            && ("progress" !in stackParams ==> op.filterKwargs["progress"] == progress)
  {
  }

  /** `FiltersWindowModel` */
  class FiltersWindowModel<F> {
    var filters: seq<Filter<F>>
    var stack: Images?
    var selectedFilter: Filter<F>
    var filterWidgetKwargs: map<string, Value>

    /** The registry is non-empty (the constructor selects its first entry)
        and holds only unqualified class names; the selected filter is one
        of its entries. */
    ghost predicate Valid()
      reads this
    {
      && |filters| > 0
      && (forall i :: 0 <= i < |filters| ==> '.' !in filters[i].className)
      && exists i :: 0 <= i < |filters| && filters[i] == selectedFilter
    }

    /** Builds the model over a registry that has a first entry to select. */
    constructor (registry: seq<Filter<F>>)
      requires |registry| > 0
      requires forall i :: 0 <= i < |registry| ==> '.' !in registry[i].className
      ensures Valid()
      ensures filters == registry && stack == null
      ensures selectedFilter == registry[0] && filterWidgetKwargs == map[]
    {
      filters := registry;
      stack := null;
      selectedFilter := registry[0];
      filterWidgetKwargs := map[];
    }

    /** `FiltersWindowModel(presenter)`: the registry is passed in instead
        of being discovered; selecting its first entry raises IndexError
        when it is empty. */
    static method Create(registry: seq<Filter<F>>) returns (r: Result<FiltersWindowModel<F>, PyError>)
      requires forall i :: 0 <= i < |registry| ==> '.' !in registry[i].className
      ensures |registry| == 0 ==> r == Failure(IndexError)
      ensures |registry| > 0 ==> r.Success? && fresh(r.value) && r.value.Valid()
                                 && r.value.filters == registry && r.value.stack == null
                                 && r.value.selectedFilter == registry[0] && r.value.filterWidgetKwargs == map[]
    {
      if |registry| == 0 {
        return Failure(IndexError);
      }
      var m := new FiltersWindowModel(registry);
      r := Success(m);
    }

    /** `filter_names`: one display name per registered filter, in registry
        order. */
    function FilterNames(): (names: seq<string>)
      reads this
      ensures |names| == |filters|
      ensures forall i :: 0 <= i < |filters| ==> names[i] == filters[i].filterName
    {
      seq(|filters|, i reads this requires 0 <= i < |filters| => filters[i].filterName)
    }

    /** `num_images_in_stack`: 0 without a stack, else the length of the
        sample's first axis. */
    function NumImagesInStack(): (n: nat)
      reads this, stack
      ensures stack == null ==> n == 0
      ensures stack != null ==> n == |stack.sample|
    {
      if stack == null then 0 else |stack.sample|
    }

    /** `setup_filter`: selects the filter at a Python list index (IndexError
        outside the list, before anything is assigned) and stores the widget
        values; nothing else changes. */
    method SetupFilter(filterIdx: int, widgetKwargs: map<string, Value>) returns (outcome: Outcome<PyError>)
      requires Valid()
      modifies this`selectedFilter, this`filterWidgetKwargs
      ensures Valid()
      ensures PyIndex(|filters|, filterIdx).None? ==> outcome == Fail(IndexError)
      ensures PyIndex(|filters|, filterIdx).None? ==> selectedFilter == old(selectedFilter)
      ensures PyIndex(|filters|, filterIdx).None? ==> filterWidgetKwargs == old(filterWidgetKwargs)
      ensures PyIndex(|filters|, filterIdx).Some? ==> outcome == Pass
      ensures PyIndex(|filters|, filterIdx).Some? ==> selectedFilter == filters[PyIndex(|filters|, filterIdx).value]
      ensures PyIndex(|filters|, filterIdx).Some? ==> filterWidgetKwargs == widgetKwargs
    {
      var idx := PyIndex(|filters|, filterIdx);
      if idx.None? {
        return Fail(IndexError);
      }
      selectedFilter := filters[idx.value];
      filterWidgetKwargs := widgetKwargs;
      outcome := Pass;
    }

    /** What applying the selected filter to `images` did, between the old
        state and the new one. Invalid widget values give ValueError before
        anything runs. Otherwise the bound filter, with `progress` and the
        stack parameters as keywords, runs on the sample, which keeps
        whatever the run left in it; a run that raised passes its error on
        with the metadata untouched, and one that did not records exactly
        one operation. */
    twostate predicate AppliedTo(images: Images, stackParams: map<string, Value>, progress: Value,
                                 invoke: (F, seq<Value>, map<string, Value>, seq<Slice>) -> RunEffect,
                                 new outcome: Outcome<PyError>)
      reads this, images
    {
      if !selectedFilter.validateExecuteKwargs(filterWidgetKwargs) then
        outcome == Fail(ValueError(MissingParametersMessage)) && unchanged(images)
      else
        var bound := BoundWithProgress(selectedFilter.executeWrapper(filterWidgetKwargs), progress);
        var run := invoke(bound.func, bound.args, CallKeywords(bound, stackParams), old(images.sample));
        var recorded := RecordedOperation(selectedFilter, filterWidgetKwargs, stackParams, progress);
        && images.sample == run.sample
        && (run.raised.Some? ==> outcome == Fail(run.raised.value) && images.metadata == old(images.metadata))
        && (run.raised.None? ==>
              && outcome == Pass && '.' !in recorded.filterName
              && images.metadata == old(images.metadata)[Operations.OperationHistory :=
                   VList(Operations.HistoryItems(old(images.metadata)) + [VDict(recorded.Serialize())])])
    }

    /** `apply_filter`: validates a copy of the widget values, runs the
        filter on the stack and records it once the run has completed.
        `invoke` calls a filter function on the sample with the given
        positional and keyword arguments. */
    method ApplyFilter(images: Images, stackParams: map<string, Value>, progress: Value,
                       invoke: (F, seq<Value>, map<string, Value>, seq<Slice>) -> RunEffect)
      returns (outcome: Outcome<PyError>)
      requires Valid() && images.Valid()
      modifies images
      ensures images.Valid()
      ensures AppliedTo(images, stackParams, progress, invoke, outcome)
    {
      var inputKwargWidgets := filterWidgetKwargs;
      if !selectedFilter.validateExecuteKwargs(inputKwargWidgets) {
        return Fail(ValueError(MissingParametersMessage));
      }
      var execFunc := selectedFilter.executeWrapper(inputKwargWidgets);
      execFunc := Operations.Partial(execFunc.func, execFunc.args, execFunc.keywords["progress" := progress]);
      var run := invoke(execFunc.func, execFunc.args, execFunc.keywords + stackParams, images.sample);
      images.sample := run.sample;
      if run.raised.Some? {
        return Fail(run.raised.value);
      }
      execFunc := Operations.Partial(execFunc.func, execFunc.args, execFunc.keywords + stackParams);
      images.RecordOperation(Operations.ImageOperation(
        selectedFilter.className, execFunc.args, execFunc.keywords, Some(selectedFilter.filterName)));
      outcome := Pass;
    }

    /** `do_apply_filter`: fails with ValueError when no stack is selected,
        otherwise applies the selected filter to the selected stack
        (synchronously here). */
    method DoApplyFilter(stackParams: map<string, Value>, progress: Value,
                         invoke: (F, seq<Value>, map<string, Value>, seq<Slice>) -> RunEffect)
      returns (outcome: Outcome<PyError>)
      requires Valid() && (stack != null ==> stack.Valid())
      modifies stack
      ensures stack == null ==> outcome == Fail(ValueError("No stack selected"))
      ensures stack != null ==> stack.Valid() && AppliedTo(stack, stackParams, progress, invoke, outcome)
    {
      if stack == null {
        return Fail(ValueError("No stack selected"));
      }
      outcome := ApplyFilter(stack, stackParams, progress, invoke);
    }
  }

  /** After a successful application the history read back from the
      metadata is the old history with exactly one record appended; a failed
      one leaves the metadata, and so the history, as it was. */
  lemma HistoryGrowsByOne<F>(before: map<string, Value>, after: map<string, Value>,
                             ops: seq<Operations.ImageOperation>, filter: Filter<F>,
                             widgetKwargs: map<string, Value>, stackParams: map<string, Value>, progress: Value)
    requires Operations.OperationHistory in before ==> before[Operations.OperationHistory].VList?
    requires Operations.DeserializeMetadata(before) == Success(ops)
    requires after == before[Operations.OperationHistory :=
               VList(Operations.HistoryItems(before) +
                     [VDict(RecordedOperation(filter, widgetKwargs, stackParams, progress).Serialize())])]
    ensures Operations.DeserializeMetadata(after).Success?
    ensures |Operations.DeserializeMetadata(after).value| == |ops| + 1
    ensures Operations.DeserializeMetadata(after).value[..|ops|] == ops
    ensures Operations.DeserializeMetadata(after).value[|ops|].filterName == filter.className
  {
    Operations.DeserializeMetadataAppend(before, ops, RecordedOperation(filter, widgetKwargs, stackParams, progress));
  }
}
