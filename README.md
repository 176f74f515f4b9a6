# Mantid Imaging core, modelled in Dafny

Mantid Imaging is a tomography workbench. This project models the
sequential logic under its views and library wrappers and proves
properties about it:

- **Operation history.** `ImageOperation` records describe filters that
  were applied to an image stack. They are serialized into the stack
  metadata, read back in order, and bound to filter functions when a
  history is replayed.
- **Filter application.** The filters window model selects a filter,
  checks its widget arguments, runs it, and records exactly one history
  entry on success.
- **Stack registry.** The main window model maps stack ids to dock
  widgets. It names new stacks without clashes and lists them sorted by
  name. It also looks stacks up and removes them.
- **Run configuration.** `FunctionalConfig` holds the defaults, copies
  the parsed command line, and enforces three ordered consistency rules.
- **Median filter driver.** A no-op guard on the kernel size, then a
  sequential in-place loop over the slices, or a parallel engine.
- **Stripe removal.** `"key=value"` parameters are parsed, per-method
  defaults are filled in, and a first-match dispatch picks wf, then ti,
  then sf.
- **Version check.** `"1.2.3_45"` strings are parsed and the local
  version is compared with the remote one.
- **imopr dispatch.** The last command token names the action and the
  other tokens are integer indices.

Layout:

- `wrappers.dfy` holds `Option`, `Result` and `Outcome`.
- `py_runtime.dfy` holds the Python values, truthiness, exceptions and
  list indexing the core relies on.
- `py_text.dfy` holds `str.split`/`join`, `int()` of a string, its
  inverse, and Python's string order.
- Each remaining file models one source file.

Python's dynamic values are the datatype `PyRuntime.Value`, and raised
exceptions are `Failure`/`Fail` results carrying a `PyRuntime.PyError`.
Numerical kernels are opaque function parameters: the 2D median, the
tomopy stripe kernels and the parallel engine. So are the filter
registry's functions and the float parser and `repr` of the Python
runtime.

## Model

| member | source | states |
|---|---|---|
| Operations.ImageOperation.ToPartial | mantidimaging/core/operation_history/operations.py:21-23 | KeyError(name) exactly when the name is not in the lookup; otherwise the looked-up function with only the stored kwargs bound and no positional args |
| Operations.ImageOperation.Serialize | mantidimaging/core/operation_history/operations.py:33-39 | exactly the four keys name/args/kwargs/display_name, each holding the matching field (None for an absent display name) |
| Operations.Deserialize | mantidimaging/core/operation_history/operations.py:26-31 | KeyError for the first missing required key, in the order name, args, kwargs; success iff the entry is well formed; a missing display name becomes None |
| Operations.DeserializeSerialize | mantidimaging/core/operation_history/operations.py:26-39 | deserializing a serialized record gives back the same record |
| Operations.SerializeDeserialize | mantidimaging/core/operation_history/operations.py:26-39 | a well-formed four-key entry survives deserialize-then-serialize unchanged |
| Operations.ImageOperation.FriendlyName | mantidimaging/core/operation_history/operations.py:46-48 | the display name when it is non-empty; the filter name when it is None or the empty string |
| Operations.DeserializeItem | mantidimaging/core/operation_history/operations.py:52 | a mapping item is deserialized; any other item is an error |
| Operations.DeserializeAll | mantidimaging/core/operation_history/operations.py:52 | succeeds iff every item does, with one record per item in the same order; otherwise reports the error of the first failing item |
| Operations.DeserializeMetadata | mantidimaging/core/operation_history/operations.py:51-53 | [] when the history key is absent; a stored list or tuple gives its records in order, or the first failing entry's error; a str or dict gives [] iff it is empty and otherwise fails on its first character or key; None, a bool or a number raises the "not iterable" TypeError naming its type |
| Operations.DeserializeAllSerializeAll | mantidimaging/core/operation_history/operations.py:51-53 | a serialized history list reads back as the same sequence of records |
| Operations.DeserializeMetadataAppend | mantidimaging/core/operation_history/operations.py:51-53 | appending one serialized record to the stored list (creating it when absent) appends exactly that record to what is read back |
| Operations.RegistryFuncs | mantidimaging/core/operation_history/operations.py:57-60 | the dict comprehension over the registry has one key per registered name; the last registration of a name wins |
| Operations.ReplayFuncs | mantidimaging/core/operation_history/operations.py:62-65 | keys are the axes-swap name plus the registry names; registry functions override the built-in axes swap on a name clash |
| Operations.OpsToPartials | mantidimaging/core/operation_history/operations.py:56-66 | consuming the generator yields the partials of the operations before the first unknown name, in order, each bound against the merged lookup; that name's KeyError then ends it; with every name known it yields one partial per operation and raises nothing |
| Operations.ReplayUsesRegistry | mantidimaging/core/operation_history/operations.py:62-65 | a registered filter is always replayed with the registry's function |
| FiltersModel.EnsureTuple | mantidimaging/gui/windows/filters/model.py:18-19 | the result is a tuple; it equals the input iff the input is a tuple; any other value is wrapped in a 1-tuple |
| FiltersModel.EnsureTupleIdempotent | mantidimaging/gui/windows/filters/model.py:18-19 | wrapping twice is the same as wrapping once |
| FiltersModel.FiltersWindowModel.Create | mantidimaging/gui/windows/filters/model.py:27-39 | IndexError for an empty registry; otherwise a fresh model over the registry with no stack, the first filter selected and empty widget kwargs |
| FiltersModel.FiltersWindowModel.FilterNames | mantidimaging/gui/windows/filters/model.py:41-43 | one name per filter, in registry order |
| FiltersModel.FiltersWindowModel.NumImagesInStack | mantidimaging/gui/windows/filters/model.py:58-61 | 0 with no stack, otherwise the number of slices of the sample |
| FiltersModel.FiltersWindowModel.SetupFilter | mantidimaging/gui/windows/filters/model.py:67-69 | sets the selected filter to filters[i] (Python indexing) and the widget kwargs to the argument; IndexError with nothing changed when i is out of range |
| FiltersModel.CallKeywords | mantidimaging/gui/windows/filters/model.py:87 | the keywords a call sees: the bound keywords overridden by the call's keywords |
| FiltersModel.BoundWithProgress | mantidimaging/gui/windows/filters/model.py:86 | the partial with `progress` set and nothing else changed |
| FiltersModel.RecordedOperation | mantidimaging/gui/windows/filters/model.py:89-95 | the record holds the filter's class name, its filter_name as display name, the partial's args, and the bound keywords plus progress overridden by the stack parameters |
| FiltersModel.RecordedKwargsAreEffective | mantidimaging/gui/windows/filters/model.py:86-90 | the recorded kwargs are exactly the effective kwargs of the call: every stack parameter and progress unless a stack parameter overrides it |
| FiltersModel.Images.RecordOperation | mantidimaging/gui/windows/filters/model.py:91-95 | appends the serialized record to the stored history list and changes nothing else |
| FiltersModel.FiltersWindowModel.ApplyFilter | mantidimaging/gui/windows/filters/model.py:71-95 | failed validation raises ValueError before running and changes nothing; otherwise the sample is whatever the filter left in it, whether or not it raised; a raising filter passes its error on and no record is made; a completed run appends exactly one record with an unqualified name |
| FiltersModel.FiltersWindowModel.DoApplyFilter | mantidimaging/gui/windows/filters/model.py:97-112 | ValueError when no stack is selected; otherwise the selected stack gets exactly the effect `ApplyFilter` promises: the validation error, the sample the run left, and one record iff the run completed |
| FiltersModel.HistoryGrowsByOne | mantidimaging/gui/windows/filters/model.py:89-95 | after a successful application the history reads back as the old history plus one record for the applied filter |
| MainModel.LastIndexOf | mantidimaging/gui/windows/main/model.py:53 | the position of the last occurrence of a character, or -1 when there is none |
| MainModel.SplitExtRoot | mantidimaging/gui/windows/main/model.py:53 | the path is unchanged iff it has no extension in its last component; otherwise the prefix up to the extension's dot |
| MainModel.InsertByName | mantidimaging/gui/windows/main/model.py:68 | inserting into a name-sorted list keeps it sorted and adds exactly that element |
| MainModel.SortByName | mantidimaging/gui/windows/main/model.py:68 | sorted by name in Python's string order, a permutation of the input, and stable: for every name, the elements with that name keep their input order |
| MainModel.InsertByNameStable | mantidimaging/gui/windows/main/model.py:68 | an inserted element goes ahead of the elements that share its name and leaves the order of every other name alone |
| MainModel.CandidatesDistinct | mantidimaging/gui/windows/main/model.py:56-61 | different suffix numbers give different names |
| MainModel.NotYetTried | mantidimaging/gui/windows/main/model.py:59-61 | every round of the loop tries a name no earlier round tried |
| MainModel.FirstFreeCandidate | mantidimaging/gui/windows/main/model.py:56-63 | the result is not a current name; it is the root when the root is free; otherwise root_N where every earlier candidate (root, root_2, ..., root_(N-1)) is taken |
| MainModel.MainWindowModel.ItemsHoldActiveStacks | mantidimaging/gui/windows/main/model.py:67 | the (id, title) pairs are exactly the active stacks |
| MainModel.MainWindowModel.StackList | mantidimaging/gui/windows/main/model.py:65-68 | sorted by name, one entry per active stack, holding exactly the (id, title) pairs of the dictionary; stacks sharing a title stay in dictionary insertion order |
| MainModel.MainWindowModel.StackNamesAreTitles | mantidimaging/gui/windows/main/model.py:70-72 | the stack names are exactly the titles of the active stacks |
| MainModel.MainWindowModel.CreateName | mantidimaging/gui/windows/main/model.py:48-63 | strips the extension first; the result never clashes with a current stack name; the stripped name itself when free; else the first free name_N with N counting up from 2 |
| MainModel.MainWindowModel.AddStack | mantidimaging/gui/windows/main/model.py:74-77 | stores the widget under the supplied id; all other entries keep their widgets and their order |
| MainModel.MainWindowModel.GetStack | mantidimaging/gui/windows/main/model.py:81-88 | KeyError naming the id exactly when the id is not active; otherwise its widget |
| MainModel.MainWindowModel.GetStackByName | mantidimaging/gui/windows/main/model.py:90-94 | None iff no active stack has that title; otherwise the first stack of that title in the listing, which is the earliest added stack with that title |
| MainModel.MainWindowModel.DoRemoveStack | mantidimaging/gui/windows/main/model.py:106-112 | deletes only that key and keeps the others' order; KeyError naming the id, with nothing changed, when the key is absent |
| MainModel.MainWindowModel.HaveActiveStacks | mantidimaging/gui/windows/main/model.py:114-116 | true iff the dictionary is non-empty |
| FunctionalConfig.FunctionalConfig.constructor | configs/functional_config.py:6-82 | the defaults: cor None, find_cor false, chunksize None, fits in and out, save_preproc true, output path None, float32, and the other documented values |
| FunctionalConfig.SelectDType | configs/functional_config.py:445-448 | 'float32' and 'float64' select their dtype; any other string keeps the previous one |
| FunctionalConfig.UpdatedCor | configs/functional_config.py:459-460 | a missing or zero cor keeps the previous value; any other value is truncated toward zero |
| FunctionalConfig.FunctionalConfig.HandleSpecialArguments | configs/functional_config.py:485-505 | passes iff the three rules hold; a missing input path fails first, then a missing output path when an output-writing mode is on, then a missing cor when reconstructing; empty strings and lists count as unset |
| FunctionalConfig.FunctionalConfig.Update | configs/functional_config.py:420-483 | copies every parsed field, maps the dtype, updates cor only when truthy, and ends with the special-argument check |
| MedianFilter.Modes | mantidimaging/core/filters/median_filter/median_filter.py:36-37 | five distinct modes, 'reflect' first (the default mode) |
| MedianFilter.MapSlices | mantidimaging/core/filters/median_filter/median_filter.py:83-84 | slice i of the result is the median of slice i, for every i |
| MedianFilter.MapSlicesChunks | mantidimaging/core/filters/median_filter/median_filter.py:83-84 | filtering a stack slice by slice is the same as filtering its two halves separately |
| MedianFilter.ExecuteSeq | mantidimaging/core/filters/median_filter/median_filter.py:78-91 | in place, every slice replaced by its median in index order; progress initialised with the slice count, updated once per slice, then closed |
| MedianFilter.Execute | mantidimaging/core/filters/median_filter/median_filter.py:40-75 | a missing or at most 1 size returns the same buffer unchanged; otherwise the parallel path when multiprocessing is available, else the sequential in-place path |
| StripeRemoval.Methods | mantidimaging/core/filters/stripe_removal/stripe_removal.py:44-47 | six distinct method names including wf, ti and sf |
| StripeRemoval.WaveletNames | mantidimaging/core/filters/stripe_removal/stripe_removal.py:50-53 | three distinct wavelet names including the default db5 |
| StripeRemoval.DictFromTokens | mantidimaging/core/filters/stripe_removal/stripe_removal.py:125 | succeeds iff every token holds exactly one '=' |
| StripeRemoval.DictFromTokensFirstError | mantidimaging/core/filters/stripe_removal/stripe_removal.py:125 | the error names the first token that does not split in two, with its part count |
| StripeRemoval.DictFromTokensKeys | mantidimaging/core/filters/stripe_removal/stripe_removal.py:125 | the keys are exactly the tokens' keys |
| StripeRemoval.DictFromTokensLastWins | mantidimaging/core/filters/stripe_removal/stripe_removal.py:125 | for a repeated key the last token supplies the value |
| StripeRemoval.GetParams | mantidimaging/core/filters/stripe_removal/stripe_removal.py:121-125 | a dict is returned as it is; tokens are parsed |
| StripeRemoval.DictFromPairTokens | mantidimaging/core/filters/stripe_removal/stripe_removal.py:121-125 | a dict written out as "key=value" tokens parses back to the same dict |
| StripeRemoval.PyInt | mantidimaging/core/filters/stripe_removal/stripe_removal.py:146-151 | int() gives an int; an int is returned as it is; a string converts iff it is an integer literal |
| StripeRemoval.Resolve | mantidimaging/core/filters/stripe_removal/stripe_removal.py:146-153 | an absent or falsy parameter keeps the default; a truthy one is converted |
| StripeRemoval.WfKwargs | mantidimaging/core/filters/stripe_removal/stripe_removal.py:131-153 | fails iff level or sigma does not convert, with level's error first; the six keys; level is int() of a truthy supplied level, else None; wname is str() of a truthy supplied wname, else db5; sigma is int() of a truthy supplied sigma, else 2; pad is always True; ncore and nchunk forwarded |
| StripeRemoval.TiKwargs | mantidimaging/core/filters/stripe_removal/stripe_removal.py:164-175 | fails iff nblock or alpha does not convert, with nblock's error first; the four keys; nblock is int() of a truthy supplied nblock, else 0; alpha is float() of a truthy supplied alpha, else 1.5; ncore and nchunk forwarded |
| StripeRemoval.SfKwargs | mantidimaging/core/filters/stripe_removal/stripe_removal.py:184-194 | fails iff a truthy size does not convert with int(), with int()'s error; the three keys; size is int() of a truthy supplied size, else 5; ncore and nchunk forwarded |
| StripeRemoval.DefaultKwargs | mantidimaging/core/filters/stripe_removal/stripe_removal.py:131-138 | with no parameters each method runs with level None, wname db5, sigma 2, pad True / nblock 0, alpha 1.5 / size 5 |
| StripeRemoval.Wf | mantidimaging/core/filters/stripe_removal/stripe_removal.py:128-153 | the step-by-step dict updates compute exactly the resolved wf kwargs, or the first error |
| StripeRemoval.Ti | mantidimaging/core/filters/stripe_removal/stripe_removal.py:161-175 | the step-by-step dict updates compute exactly the resolved ti kwargs, or the first error |
| StripeRemoval.Sf | mantidimaging/core/filters/stripe_removal/stripe_removal.py:181-194 | the dict update computes exactly the resolved sf kwargs, or the error |
| StripeRemoval.Execute | mantidimaging/core/filters/stripe_removal/stripe_removal.py:105-118 | at most one method runs, wf before ti before sf; with none given the data is returned unchanged |
| VersionCheck.ParseVersion | mantidimaging/core/utility/version_check.py:40-42 | ValueError for no '_' (too few values) or several (too many); otherwise succeeds iff every dot-separated release part and the commit count are integer literals; release number i is int() of part i and the commit count is int() of the part after '_'; every failure is a ValueError |
| VersionCheck.ParseFormatVersion | mantidimaging/core/utility/version_check.py:40-42 | formatting a version as dotted numbers, '_' and the commit count, then parsing it, gives the version back |
| VersionCheck.TupleLessTotal | mantidimaging/core/utility/version_check.py:33 | Python's tuple order is total (with irreflexive and transitive lemmas beside it) |
| VersionCheck.NotLatestAsWrittenIsNotAnOrder | mantidimaging/core/utility/version_check.py:33 | the comparison as written flags each of two versions as older than the other |
| VersionCheck.OutdatedIsStrictTotalOrder | mantidimaging/core/utility/version_check.py:33 | the corrected comparison is a strict total order |
| VersionCheck.NewerReleaseIsNotOutdated | mantidimaging/core/utility/version_check.py:33 | a newer release is never reported outdated, whatever the commit counts |
| VersionCheck.FindIfLatestVersion | mantidimaging/core/utility/version_check.py:25-37 | an empty local version is reported first, then an empty remote; only then are both parsed, local first; then not latest iff outdated and latest iff not outdated, under the corrected comparison (see Findings) |
| VersionCheck.FindIfLatestVersionAsWritten | mantidimaging/core/utility/version_check.py:25-37 | the same decision with line 33's condition as written: not latest iff the release or the commit count is smaller |
| VersionCheck.AsWrittenReportsBothBehind | mantidimaging/core/utility/version_check.py:30-36 | as written, 1.2_0 and 1.1_5 are each reported as not the latest against the other; the corrected check reports only 1.1_5 as behind |
| VersionCheck.SameVersionIsLatest | mantidimaging/core/utility/version_check.py:25-37 | identical local and remote versions are reported latest |
| ImoprRunner.GetFunction | imopr/runner.py:31-52 | a name maps only to its table entry; names outside the table give None; the visualiser iff "show" or "vis" |
| ImoprRunner.GetFunctionDistinct | imopr/runner.py:31-52 | apart from the show/vis alias, different names select different actions |
| ImoprRunner.Dispatch | imopr/runner.py:8-11 | the last token is the action name; the others become int indices in order; the first non-integer index gives its ValueError, whatever the name; with all indices valid an unknown name gives the TypeError of calling None |
| ImoprRunner.DispatchOfCommandLine | imopr/runner.py:8-11 | writing indices as decimal strings followed by a known name dispatches back to that action and those indices |
| ImoprRunner.Execute | imopr/runner.py:5-11 | pops the last token off the configured command list; AttributeError when there is none, IndexError when it is empty |
| PyText.Split | mantidimaging/core/utility/version_check.py:41-42 | one more piece than separators, none containing the separator, joining back to the input |
| PyText.SplitOfJoin | mantidimaging/core/utility/version_check.py:41-42 | splitting separator-free pieces after joining them gives the pieces back |
| PyText.ParseInt | mantidimaging/core/utility/version_check.py:42 | int() of a string succeeds iff it is an optionally signed decimal literal |
| PyText.ParseIntOfIntToString | mantidimaging/core/utility/version_check.py:42 | int(str(i)) == i |
| PyText.ParseInts | mantidimaging/core/utility/version_check.py:42 | maps int() over tokens in order and fails on the first non-integer token |
| PyText.StrLessTotal | mantidimaging/gui/windows/main/model.py:68 | Python's string order is total (with irreflexive and transitive lemmas beside it) |

## Left out

- `mantidimaging/core/operation_history/const.py` is not part of this model. Its key names are taken to be distinct strings, and only their distinctness is used.
- Operations.Deserialize: rejects entries whose fields have the wrong Python type. Python would accept them and fail later.
- PyText.ParseInt: accepts an optional sign and ASCII digits only. Python's `int()` also allows surrounding whitespace, underscores and other Unicode digits.
- `ImageOperation.__str__` and `FunctionalConfig.__str__`: text formatting.
- FiltersModel.FiltersWindowModel.constructor: builds the model only over a non-empty registry. `Create` wraps it and gives the IndexError of model.py:38 for an empty one.
- FiltersModel.FiltersWindowModel.ApplyFilter: a filter call is the function `invoke` from the sample to the sample it leaves and the exception it raises. Aliasing of the sample with other objects is not modelled.
- Operations.DeserializeMetadataAppend: requires a stored history, if there is one, to be a list, which `Images` keeps as its invariant. `record_operation` on another kind of history is not modelled.
- Operations.DeserializeItem: an item that is not a mapping fails with one TypeError message. Python's message names the item's type.
- Operations.DeserializeMetadata: the iteration order of a dict history is not modelled. Every key is a str, so a non-empty dict fails with the same error whichever key comes first.
- MainModel.MainWindowModel.GetStack: the KeyError names the id in decimal. Python shows the `repr` of the UUID.
- MainModel.SplitExtRoot: follows POSIX `os.path.splitext`. Windows' second separator `\` and drive letters are not modelled.
- Default arguments of `median_filter.execute` (`mode=modes()[0]`, `cores=None`, `chunksize=None`) and `stripe_removal.execute` (`cores`, `chunksize` and `progress` None) are not modelled. Callers pass every argument, and `Modes` states that its first entry is "reflect".
- `BaseFilter`, `load_filter_packages`, `Images` and `get_parameters_from_stack` are not part of this model. The filter registry is a sequence of records with function fields. `Images.record_operation` is modelled as appending the serialized record to the metadata history list.
- `do_apply_filter`'s asynchronous task, its notifications and its preview refresh. The model applies the filter directly.
- `filter_registration_func`, `stack_presenter` and `params_needed_from_stack` are Qt wiring.
- Stack loading and saving (`do_load_stack`, `do_saving`), `get_stack_visualiser` and `get_stack_history`, which reach into Qt widgets.
- `uuid.uuid1()`: the new stack id is a parameter of `AddStack`.
- MainModel.MainWindowModel: Python's dict is modelled as its keys in insertion order plus a map. Only this order matters, as the tie order of the stable sort.
- FunctionalConfig.FunctionalConfig: the many scalar fields are grouped into records (paths, preprocessing, debugging, reconstruction, aggregation). `update` still assigns them in place, one group at a time.
- FunctionalConfig.FunctionalConfig.Update: `max_angle` and the cor value are real numbers that are only copied or truncated. No floating-point arithmetic is modelled.
- argparse wiring (`setup_parser`) and the readme file writing.
- MedianFilter.Execute: the parallel engine (`_execute_par`) is an opaque function returning a fresh buffer. Its internal concurrency is not modelled. `h.check_data_stack` and the progress messages are left out.
- The median kernel and the tomopy stripe kernels are opaque functions. There is no floating-point semantics.
- StripeRemoval.PyFloat: parsing a float literal and `repr` of floats or containers are opaque parameters.
- StripeRemoval.GetParams: parameters are a dict or a list of strings. Any other iterable is not modelled.
- StripeRemoval.Execute: the progress messages and the tomopy import are left out.
- VersionCheck.FindIfLatestVersion: decides with the corrected comparison `Outdated`, not the one at version_check.py:33. That one is kept as `NotLatestAsWritten`, and `FindIfLatestVersionAsWritten` decides with it (see Findings).
- VersionCheck.FindIfLatestVersion: the `conda` subprocess, the HTTP request and `.strip()` are left out. The two version strings are parameters, and the log messages become a status value.
- ImoprRunner.Execute: the Helper, the data loader and the final call of the action are left out. The result is the selected action and the indices.

## Findings

| source | as written | input that shows it | evidently intended | confidence | as-written member | corrected member |
|---|---|---|---|---|---|---|
| mantidimaging/core/utility/version_check.py:33 | not latest if `local_version < remote_version or local_commits < remote_commits` | local `1.2_0`, remote `1.1_5`: a newer local release is reported as not latest, and swapping the two is reported as not latest too | compare the release first and use the commit count only when the releases are equal (lexicographic order on the pair) | medium, not executed | VersionCheck.AsWrittenReportsBothBehind | VersionCheck.OutdatedIsStrictTotalOrder |
