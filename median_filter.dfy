/** The median filter driver
    (mantidimaging/core/filters/median_filter/median_filter.py): a no-op
    guard on the kernel size, then either the shared-memory parallel engine
    or a sequential loop replacing every slice of the stack in place. The
    2D median itself is a function supplied by the caller. */
module MedianFilter {
  import opened Wrappers
  import opened PyRuntime

  /** `modes()`: the border modes, the default first. */
  function Modes(): (r: seq<string>)
    ensures |r| == 5 && r[0] == "reflect"
    ensures forall i, j :: 0 <= i < j < |r| ==> r[i] != r[j]
  {
    ["reflect", "constant", "nearest", "mirror", "wrap"]
  }

  /** `scipy.ndimage.median_filter(slice, size, mode=mode)` */
  type MedianKernel = (Slice, int, string) -> Slice

  /** `_execute_par`: the parallel engine, not modelled beyond its result. */
  type ParallelEngine = (seq<Slice>, int, string, Option<int>, Option<int>) -> seq<Slice>

  /** `if size and size > 1`: the filter runs only for a size above one;
      None fails the first test, and 0, the only falsy int, fails the
      second as well. */
  predicate Filters(size: Option<int>)
  {
    size.Some? && size.value > 1
  }

  /** Every slice of a stack replaced by its median-filtered image. */
  function MapSlices(stack: seq<Slice>, size: int, mode: string, median: MedianKernel): (r: seq<Slice>)
    ensures |r| == |stack|
    ensures forall i :: 0 <= i < |stack| ==> r[i] == median(stack[i], size, mode)
  {
    seq(|stack|, i requires 0 <= i < |stack| => median(stack[i], size, mode))
  }

  /** Filtering works slice by slice, so filtering a stack in two chunks
      and concatenating gives the same result as filtering it whole. */
  lemma MapSlicesChunks(a: seq<Slice>, b: seq<Slice>, size: int, mode: string, median: MedianKernel)
    ensures MapSlices(a + b, size, mode, median) == MapSlices(a, size, mode, median) + MapSlices(b, size, mode, median)
  {
    var whole := MapSlices(a + b, size, mode, median);
    var parts := MapSlices(a, size, mode, median) + MapSlices(b, size, mode, median);
    forall i | 0 <= i < |whole| ensures whole[i] == parts[i] {
      if i < |a| {
        assert (a + b)[i] == a[i];
      } else {
        assert (a + b)[i] == b[i - |a|];
      }
    }
  }

  /** The progress bar the helper keeps: `prog_init(total)`, one
      `prog_update()` per unit, `prog_close()`. */
  class Progress {
    var total: int
    var updates: nat
    var closed: bool

    constructor ()
      ensures total == 0 && updates == 0 && !closed
    {
      total := 0;
      updates := 0;
      closed := false;
    }
  }

  /** `_execute_seq`: for idx in 0 .. shape[0]-1, in order, replaces slice
      idx by its filtered image in the same buffer, updating the progress
      once per slice. */
  method ExecuteSeq(data: array<Slice>, size: int, mode: string, median: MedianKernel, progress: Progress)
    modifies data, progress
    ensures data[..] == MapSlices(old(data[..]), size, mode, median)
    ensures progress.total == data.Length && progress.updates == data.Length && progress.closed
  {
    progress.total, progress.updates, progress.closed := data.Length, 0, false;
    var idx := 0;
    while idx < data.Length
      invariant 0 <= idx <= data.Length
      invariant forall i :: 0 <= i < idx ==> data[i] == median(old(data[i]), size, mode)
      invariant forall i :: idx <= i < data.Length ==> data[i] == old(data[i])
      invariant progress.total == data.Length && progress.updates == idx && !progress.closed
    {
      data[idx] := median(data[idx], size, mode);
      progress.updates := progress.updates + 1;
      idx := idx + 1;
    }
    progress.closed := true;
  }

  /** `execute`: returns the data untouched unless the size is above one;
      then the parallel engine runs when multiprocessing is available, and
      otherwise the sequential loop filters the same buffer, which is
      returned. */
  method Execute(data: array<Slice>, size: Option<int>, mode: string, cores: Option<int>, chunksize: Option<int>,
                 multiprocessingAvailable: bool, median: MedianKernel, parallel: ParallelEngine, progress: Progress)
    returns (result: array<Slice>)
    modifies data, progress
    ensures !Filters(size) ==> result == data && data[..] == old(data[..])
    ensures Filters(size) && !multiprocessingAvailable ==>
              result == data && data[..] == MapSlices(old(data[..]), size.value, mode, median)
    ensures Filters(size) && multiprocessingAvailable ==>
              result[..] == parallel(old(data[..]), size.value, mode, cores, chunksize)
  {
    result := data;
    if Filters(size) {
      if multiprocessingAvailable {
        var out := parallel(data[..], size.value, mode, cores, chunksize);
        result := new Slice[|out|](i requires 0 <= i < |out| => out[i]);
      } else {
        ExecuteSeq(data, size.value, mode, median, progress);
      }
    }
  }
}
