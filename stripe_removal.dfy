/** Stripe (ring artefact) removal
    (mantidimaging/core/filters/stripe_removal/stripe_removal.py): the
    method parameters come as a dict or as "key=value" tokens, each method
    fills in its defaults, and `execute` runs the first method given. The
    tomopy kernels themselves are functions supplied by the caller. */
module StripeRemoval {
  import opened Wrappers
  import opened PyRuntime
  import opened PyText

  /** `methods()` */
  function Methods(): (r: seq<string>)
    ensures |r| == 6
    ensures forall i, j :: 0 <= i < j < |r| ==> r[i] != r[j]
    ensures "wf" in r && "ti" in r && "sf" in r
  {
    ["wf", "wavelet-fourier", "ti", "titarenko", "sf", "smoothing-filter"]
  }

  /** `wavelet_names()`, which include the wavelet-Fourier default. */
  function WaveletNames(): (r: seq<string>)
    ensures |r| == 3
    ensures forall i, j :: 0 <= i < j < |r| ==> r[i] != r[j]
    ensures "db5" in r
  {
    ["haar", "db5", "sym5"]
  }

  // ---------------------------------------------------------------------
  // _get_params
  // ---------------------------------------------------------------------

  /** A method's parameters: a dict, or the list of "key=value" tokens
      given on the command line. */
  datatype Params = DictParams(entries: map<string, Value>) | TokenParams(tokens: seq<string>)

  /** `bool(params)`: present and non-empty. */
  predicate Given(p: Option<Params>)
  {
    p.Some? && match p.value
               case DictParams(m) => |m| > 0
               case TokenParams(ts) => |ts| > 0
  }

  /** The error `dict()` raises for an element that is not a pair. */
  const NotAPairPrefix := "dictionary update sequence element #"
  const NotAPairMiddle := " has length "
  const NotAPairSuffix := "; 2 is required"

  function NotAPairError(index: nat, length: nat): PyError
  {
    ValueError(NotAPairPrefix + IntToString(index) + NotAPairMiddle + IntToString(length) + NotAPairSuffix)
  }

  /** Token t holds exactly one '=', so it splits into a key and a value. */
  predicate IsPairToken(t: string) { Count(t, '=') == 1 }

  /** The part of a token before its first '='. */
  function TokenKey(t: string): string { Split(t, '=')[0] }

  /** `dict(map(lambda p: p.split('='), tokens))`: succeeds iff every token
      holds exactly one '='. */
  function DictFromTokens(tokens: seq<string>): (r: Result<map<string, Value>, PyError>)
    ensures r.Success? <==> forall i :: 0 <= i < |tokens| ==> IsPairToken(tokens[i])
    decreases |tokens|
  {
    if |tokens| == 0 then Success(map[])
    else
      var n := |tokens| - 1;
      var prev := DictFromTokens(tokens[..n]);
      var parts := Split(tokens[n], '=');
      if prev.Failure? then
        prev
      else if |parts| != 2 then
        Failure(NotAPairError(n, |parts|))
      else
        Success(prev.value[parts[0] := VStr(parts[1])])
  }

  /** A failed parse reports the first token without exactly one '=' and
      the number of parts it split into. */
  lemma {:induction false} DictFromTokensFirstError(tokens: seq<string>, k: nat)
    requires k < |tokens| && !IsPairToken(tokens[k])
    requires forall j :: 0 <= j < k ==> IsPairToken(tokens[j])
    ensures DictFromTokens(tokens) == Failure(NotAPairError(k, |Split(tokens[k], '=')|))
    decreases |tokens|
  {
    var n := |tokens| - 1;
    if k < n {
      var init := tokens[..n];
      assert init[k] == tokens[k];
      assert forall j :: 0 <= j < k ==> init[j] == tokens[j];
      DictFromTokensFirstError(init, k);
    } else {
      assert forall j :: 0 <= j < n ==> tokens[..n][j] == tokens[j];
    }
  }

  /** The keys of the parsed dict are exactly the tokens' keys. */
  lemma {:induction false} DictFromTokensKeys(tokens: seq<string>)
    requires DictFromTokens(tokens).Success?
    ensures forall key :: key in DictFromTokens(tokens).value <==>
              exists i :: 0 <= i < |tokens| && TokenKey(tokens[i]) == key
    decreases |tokens|
  {
    if |tokens| > 0 {
      var n := |tokens| - 1;
      var init := tokens[..n];
      DictFromTokensKeys(init);
      var m := DictFromTokens(tokens).value;
      var prev := DictFromTokens(init).value;
      var last := TokenKey(tokens[n]);
      assert m.Keys == prev.Keys + {last};
      forall key | key in m ensures exists i :: 0 <= i < |tokens| && TokenKey(tokens[i]) == key {
        if key != last {
          var i :| 0 <= i < n && TokenKey(init[i]) == key;
          assert init[i] == tokens[i];
        }
      }
      forall key, i | 0 <= i < |tokens| && TokenKey(tokens[i]) == key ensures key in m {
        if i < n {
          assert init[i] == tokens[i];
        }
      }
    }
  }

  /** Of several tokens with the same key, the last one supplies the value. */
  lemma {:induction false} DictFromTokensLastWins(tokens: seq<string>, i: nat)
    requires DictFromTokens(tokens).Success?
    requires i < |tokens|
    requires forall j :: i < j < |tokens| ==> TokenKey(tokens[j]) != TokenKey(tokens[i])
    ensures TokenKey(tokens[i]) in DictFromTokens(tokens).value
    ensures DictFromTokens(tokens).value[TokenKey(tokens[i])] == VStr(Split(tokens[i], '=')[1])
    decreases |tokens|
  {
    var n := |tokens| - 1;
    if i < n {
      var init := tokens[..n];
      assert forall j :: i < j < n ==> init[j] == tokens[j];
      DictFromTokensLastWins(init, i);
    }
  }

  /** `_get_params`: a dict is returned as it is, tokens are parsed. */
  function GetParams(p: Params): (r: Result<map<string, Value>, PyError>)
    ensures p.DictParams? ==> r == Success(p.entries)
    ensures p.TokenParams? ==> r == DictFromTokens(p.tokens)
  {
    match p
    case DictParams(m) => Success(m)
    case TokenParams(ts) => DictFromTokens(ts)
  }

  /** Distinct keys and values without '=' written as "key=value" tokens. */
  function PairTokens(keys: seq<string>, values: seq<string>): (ts: seq<string>)
    requires |keys| == |values|
    ensures |ts| == |keys|
    ensures forall i :: 0 <= i < |keys| ==> ts[i] == keys[i] + "=" + values[i]
  {
    seq(|keys|, i requires 0 <= i < |keys| => keys[i] + "=" + values[i])
  }

  /** A "key=value" token splits back into its key and value. */
  lemma SplitPairToken(key: string, value: string)
    requires '=' !in key && '=' !in value
    ensures Split(key + "=" + value, '=') == [key, value]
  {
    assert key + "=" + value == key + ['='] + value;
    SplitAtFirstSeparator(key, value, '=');
    SplitNoSeparator(value, '=');
  }

  /** Writing a dict out as command-line tokens and parsing them gives the
      dict back. */
  lemma DictFromPairTokens(keys: seq<string>, values: seq<string>)
    requires |keys| == |values|
    requires forall i, j :: 0 <= i < j < |keys| ==> keys[i] != keys[j]
    requires forall i :: 0 <= i < |keys| ==> '=' !in keys[i] && '=' !in values[i]
    ensures DictFromTokens(PairTokens(keys, values)).Success?
    ensures var m := DictFromTokens(PairTokens(keys, values)).value;
            m.Keys == (set k | k in keys) && forall i :: 0 <= i < |keys| ==> m[keys[i]] == VStr(values[i])
  {
    var ts := PairTokens(keys, values);
    forall i | 0 <= i < |keys| ensures Split(ts[i], '=') == [keys[i], values[i]] && IsPairToken(ts[i]) {
      SplitPairToken(keys[i], values[i]);
    }
    DictFromTokensKeys(ts);
    var m := DictFromTokens(ts).value;
    forall k | k in m ensures k in keys {
      var i :| 0 <= i < |ts| && TokenKey(ts[i]) == k;
    }
    forall k | k in keys ensures k in m {
      var i :| 0 <= i < |keys| && keys[i] == k;
      assert TokenKey(ts[i]) == k;
    }
    forall i | 0 <= i < |keys| ensures m[keys[i]] == VStr(values[i]) {
      DictFromTokensLastWins(ts, i);
    }
  }

  // ---------------------------------------------------------------------
  // Keyword-argument resolution
  // ---------------------------------------------------------------------

  /** Conversions the core applies to user-supplied values whose Python
      semantics reach beyond this model: parsing a float literal and the
      `repr` of floats and containers. */
  datatype Builtins = Builtins(parseFloat: string -> Option<real>, repr: Value -> string)

  /** The errors `int()` and `float()` raise for an argument of the wrong type. */
  const IntArgMessage := "int() argument must be a string, a bytes-like object or a number, not '"
  const FloatLiteralMessage := "could not convert string to float: '"
  const FloatArgMessage := "float() argument must be a string or a number, not '"

  function IntArgTypeError(v: Value): PyError
  {
    TypeError(IntArgMessage + TypeName(v) + "'")
  }

  function FloatArgTypeError(v: Value): PyError
  {
    TypeError(FloatArgMessage + TypeName(v) + "'")
  }

  /** `int(s)` of a string: an integer literal, or ValueError. */
  function IntOfString(s: string): (r: Result<Value, PyError>)
    ensures r.Success? <==> IsIntLiteral(s)
    ensures r.Success? ==> r.value.VInt?
  {
    match ParseInt(s)
    case Some(i) => Success(VInt(i))
    case None => Failure(InvalidIntLiteral(s))
  }

  /** `int(v)` */
  function PyInt(v: Value): (r: Result<Value, PyError>)
    ensures r.Success? ==> r.value.VInt?
    ensures v.VInt? ==> r == Success(v)
    ensures v.VStr? ==> r == IntOfString(v.s)
  {
    match v
    case VBool(b) => Success(VInt(if b then 1 else 0))
    case VInt(_) => Success(v)
    case VFloat(x) => Success(VInt(TruncToInt(x)))
    case VStr(s) => IntOfString(s)
    case _ => Failure(IntArgTypeError(v))
  }

  /** `float(v)` */
  function PyFloat(v: Value, b: Builtins): (r: Result<Value, PyError>)
    ensures r.Success? ==> r.value.VFloat?
  {
    match v
    case VBool(x) => Success(VFloat(if x then 1.0 else 0.0))
    case VInt(i) => Success(VFloat(i as real))
    case VFloat(x) => Success(VFloat(x))
    case VStr(s) =>
      if b.parseFloat(s).Some? then Success(VFloat(b.parseFloat(s).value))
      else Failure(ValueError(FloatLiteralMessage + s + "'"))
    case _ => Failure(FloatArgTypeError(v))
  }

  /** `str(v)` */
  function PyStr(v: Value, b: Builtins): (r: Value)
    ensures r.VStr?
    ensures v.VStr? ==> r == v
  {
    match v
    case VNone => VStr("None")
    case VBool(x) => VStr(if x then "True" else "False")
    case VInt(i) => VStr(IntToString(i))
    case VStr(s) => VStr(s)
    case _ => VStr(b.repr(v))
  }

  /** The conversion applied to one supplied parameter. */
  datatype Conv = IntConv | FloatConv | StrConv | BoolConv

  function Convert(c: Conv, v: Value, b: Builtins): (r: Result<Value, PyError>)
    ensures c == BoolConv ==> r == Success(VBool(Truthy(v)))
    ensures c == StrConv ==> r.Success? && r.value.VStr?
  {
    match c
    case IntConv => PyInt(v)
    case FloatConv => PyFloat(v, b)
    case StrConv => Success(PyStr(v, b))
    case BoolConv => Success(VBool(Truthy(v)))
  }

  /** `conv(params.get(key)) if params.get(key) else default`: a supplied
      truthy value overrides the default after conversion; an absent or
      falsy one leaves the default. */
  function Resolve(params: map<string, Value>, key: string, default: Value, c: Conv, b: Builtins): (r: Result<Value, PyError>)
    ensures key !in params || !Truthy(params[key]) ==> r == Success(default)
    ensures key in params && Truthy(params[key]) ==> r == Convert(c, params[key], b)
  {
    if key in params && Truthy(params[key]) then Convert(c, params[key], b) else Success(default)
  }

  /** The dicts of defaults `_wf`, `_ti` and `_sf` start from. */
  function WfDefaults(cores: Value, chunksize: Value): map<string, Value>
  {
    map["level" := VNone, "wname" := VStr("db5"), "sigma" := VInt(2), "pad" := VBool(true),
        "ncore" := cores, "nchunk" := chunksize]
  }

  function TiDefaults(cores: Value, chunksize: Value): map<string, Value>
  {
    map["nblock" := VInt(0), "alpha" := VFloat(1.5), "ncore" := cores, "nchunk" := chunksize]
  }

  function SfDefaults(cores: Value, chunksize: Value): map<string, Value>
  {
    map["size" := VInt(5), "ncore" := cores, "nchunk" := chunksize]
  }

  /** The keyword arguments `_wf` passes to `remove_stripe_fw`: level
      (None), wname ('db5'), sigma (2) and pad (True), each overridden by a
      truthy supplied value, in that order, plus ncore and nchunk as given. */
  function WfKwargs(params: map<string, Value>, cores: Value, chunksize: Value, b: Builtins): (r: Result<map<string, Value>, PyError>)
    ensures r.Success? <==> Resolve(params, "level", VNone, IntConv, b).Success?
                            && Resolve(params, "sigma", VInt(2), IntConv, b).Success?
    ensures r.Success? ==> r.value.Keys == {"level", "wname", "sigma", "pad", "ncore", "nchunk"}
    ensures r.Success? ==> r.value["ncore"] == cores && r.value["nchunk"] == chunksize
    ensures r.Success? ==> (r.value["level"].VNone? || r.value["level"].VInt?) && r.value["wname"].VStr?
                           && r.value["sigma"].VInt? && r.value["pad"] == VBool(true)
    ensures r.Success? ==> r.value["level"] == Resolve(params, "level", VNone, IntConv, b).value
                           && r.value["sigma"] == Resolve(params, "sigma", VInt(2), IntConv, b).value
    ensures r.Success? ==> r.value["wname"] == if "wname" in params && Truthy(params["wname"])
                                               then PyStr(params["wname"], b) else VStr("db5")
    ensures r.Failure? ==> r.error == (if Resolve(params, "level", VNone, IntConv, b).Failure?
                                       then Resolve(params, "level", VNone, IntConv, b).error
                                       else Resolve(params, "sigma", VInt(2), IntConv, b).error)
  {
    var kwargs := WfDefaults(cores, chunksize);
    var level :- Resolve(params, "level", kwargs["level"], IntConv, b);
    var wname := if "wname" in params && Truthy(params["wname"]) then PyStr(params["wname"], b) else kwargs["wname"];
    var sigma :- Resolve(params, "sigma", kwargs["sigma"], IntConv, b);
    var pad := if "pad" in params && Truthy(params["pad"]) then VBool(Truthy(params["pad"])) else kwargs["pad"];
    Success(kwargs["level" := level]["wname" := wname]["sigma" := sigma]["pad" := pad])
  }

  /** The keyword arguments `_ti` passes to `remove_stripe_ti`: nblock (0)
      and alpha (1.5), each overridden by a truthy supplied value, plus
      ncore and nchunk as given. */
  function TiKwargs(params: map<string, Value>, cores: Value, chunksize: Value, b: Builtins): (r: Result<map<string, Value>, PyError>)
    ensures r.Success? <==> Resolve(params, "nblock", VInt(0), IntConv, b).Success?
                            && Resolve(params, "alpha", VFloat(1.5), FloatConv, b).Success?
    ensures r.Success? ==> r.value.Keys == {"nblock", "alpha", "ncore", "nchunk"}
    ensures r.Success? ==> r.value["ncore"] == cores && r.value["nchunk"] == chunksize
    ensures r.Success? ==> r.value["nblock"].VInt? && r.value["alpha"].VFloat?
    ensures r.Success? ==> r.value["nblock"] == Resolve(params, "nblock", VInt(0), IntConv, b).value
                           && r.value["alpha"] == Resolve(params, "alpha", VFloat(1.5), FloatConv, b).value
    ensures r.Failure? ==> r.error == (if Resolve(params, "nblock", VInt(0), IntConv, b).Failure?
                                       then Resolve(params, "nblock", VInt(0), IntConv, b).error
                                       else Resolve(params, "alpha", VFloat(1.5), FloatConv, b).error)
  {
    var kwargs := TiDefaults(cores, chunksize);
    var nblock :- Resolve(params, "nblock", kwargs["nblock"], IntConv, b);
    var alpha :- Resolve(params, "alpha", kwargs["alpha"], FloatConv, b);
    Success(kwargs["nblock" := nblock]["alpha" := alpha])
  }

  /** The keyword arguments `_sf` passes to `remove_stripe_sf`: size (5),
      overridden by int() of a truthy supplied value, plus ncore and nchunk
      as given. */
  function SfKwargs(params: map<string, Value>, cores: Value, chunksize: Value): (r: Result<map<string, Value>, PyError>)
    ensures r.Success? <==> "size" !in params || !Truthy(params["size"]) || PyInt(params["size"]).Success?
    ensures r.Success? ==> r.value.Keys == {"size", "ncore", "nchunk"}
    ensures r.Success? ==> r.value["ncore"] == cores && r.value["nchunk"] == chunksize
    ensures r.Success? ==> r.value["size"].VInt?
    ensures r.Success? ==> r.value["size"] == if "size" in params && Truthy(params["size"])
                                              then PyInt(params["size"]).value else VInt(5)
    ensures r.Failure? ==> r.error == PyInt(params["size"]).error
  {
    var kwargs := SfDefaults(cores, chunksize);
    var size :- if "size" in params && Truthy(params["size"]) then PyInt(params["size"]) else Success(kwargs["size"]);
    Success(kwargs["size" := size])
  }

  /** With nothing supplied, every method runs with its documented
      defaults. */
  lemma DefaultKwargs(cores: Value, chunksize: Value, b: Builtins)
    ensures WfKwargs(map[], cores, chunksize, b) == Success(map["level" := VNone, "wname" := VStr("db5"),
              "sigma" := VInt(2), "pad" := VBool(true), "ncore" := cores, "nchunk" := chunksize])
    ensures TiKwargs(map[], cores, chunksize, b) == Success(map["nblock" := VInt(0), "alpha" := VFloat(1.5),
              "ncore" := cores, "nchunk" := chunksize])
    ensures SfKwargs(map[], cores, chunksize) == Success(map["size" := VInt(5), "ncore" := cores, "nchunk" := chunksize])
  {
    var w := WfDefaults(cores, chunksize);
    assert w["level" := w["level"]]["wname" := w["wname"]]["sigma" := w["sigma"]]["pad" := w["pad"]] == w;
    var t := TiDefaults(cores, chunksize);
    assert t["nblock" := t["nblock"]]["alpha" := t["alpha"]] == t;
    var f := SfDefaults(cores, chunksize);
    assert f["size" := f["size"]] == f;
  }

  /** What `_wf` passes to the kernel: the parsed parameters resolved, or
      the first error. */
  function WfResolved(p: Params, cores: Value, chunksize: Value, b: Builtins): Result<map<string, Value>, PyError>
  {
    match GetParams(p)
    case Failure(e) => Failure(e)
    case Success(m) => WfKwargs(m, cores, chunksize, b)
  }

  /** What `_ti` passes to the kernel. */
  function TiResolved(p: Params, cores: Value, chunksize: Value, b: Builtins): Result<map<string, Value>, PyError>
  {
    match GetParams(p)
    case Failure(e) => Failure(e)
    case Success(m) => TiKwargs(m, cores, chunksize, b)
  }

  /** What `_sf` passes to the kernel. */
  function SfResolved(p: Params, cores: Value, chunksize: Value): Result<map<string, Value>, PyError>
  {
    match GetParams(p)
    case Failure(e) => Failure(e)
    case Success(m) => SfKwargs(m, cores, chunksize)
  }

  /** `_wf` up to the tomopy call: the defaults dict, then each entry
      overwritten by its resolved value in turn. */
  method Wf(p: Params, cores: Value, chunksize: Value, b: Builtins) returns (r: Result<map<string, Value>, PyError>)
    ensures r == WfResolved(p, cores, chunksize, b)
  {
    var kwargs := WfDefaults(cores, chunksize);
    var got := GetParams(p);
    if got.Failure? {
      return Failure(got.error);
    }
    var params := got.value;
    assert WfResolved(p, cores, chunksize, b) == WfKwargs(params, cores, chunksize, b);
    var level := Resolve(params, "level", kwargs["level"], IntConv, b);
    if level.Failure? {
      assert WfKwargs(params, cores, chunksize, b) == Failure(level.error);
      return Failure(level.error);
    }
    kwargs := kwargs["level" := level.value];
    kwargs := kwargs["wname" := Resolve(params, "wname", kwargs["wname"], StrConv, b).value];
    var sigma := Resolve(params, "sigma", kwargs["sigma"], IntConv, b);
    if sigma.Failure? {
      assert WfKwargs(params, cores, chunksize, b) == Failure(sigma.error);
      return Failure(sigma.error);
    }
    kwargs := kwargs["sigma" := sigma.value];
    kwargs := kwargs["pad" := Resolve(params, "pad", kwargs["pad"], BoolConv, b).value];
    assert kwargs == WfKwargs(params, cores, chunksize, b).value;
    r := Success(kwargs);
  }

  /** `_ti` up to the tomopy call. */
  method Ti(p: Params, cores: Value, chunksize: Value, b: Builtins) returns (r: Result<map<string, Value>, PyError>)
    ensures r == TiResolved(p, cores, chunksize, b)
  {
    var kwargs := TiDefaults(cores, chunksize);
    var got := GetParams(p);
    if got.Failure? {
      return Failure(got.error);
    }
    var params := got.value;
    assert TiResolved(p, cores, chunksize, b) == TiKwargs(params, cores, chunksize, b);
    var nblock := Resolve(params, "nblock", kwargs["nblock"], IntConv, b);
    if nblock.Failure? {
      assert TiKwargs(params, cores, chunksize, b) == Failure(nblock.error);
      return Failure(nblock.error);
    }
    kwargs := kwargs["nblock" := nblock.value];
    var alpha := Resolve(params, "alpha", kwargs["alpha"], FloatConv, b);
    if alpha.Failure? {
      assert TiKwargs(params, cores, chunksize, b) == Failure(alpha.error);
      return Failure(alpha.error);
    }
    kwargs := kwargs["alpha" := alpha.value];
    assert kwargs == TiKwargs(params, cores, chunksize, b).value;
    r := Success(kwargs);
  }

  /** `_sf` up to the tomopy call. */
  method Sf(p: Params, cores: Value, chunksize: Value) returns (r: Result<map<string, Value>, PyError>)
    ensures r == SfResolved(p, cores, chunksize)
  {
    var kwargs := SfDefaults(cores, chunksize);
    var got := GetParams(p);
    if got.Failure? {
      return Failure(got.error);
    }
    var params := got.value;
    assert SfResolved(p, cores, chunksize) == SfKwargs(params, cores, chunksize);
    var size := if "size" in params && Truthy(params["size"]) then PyInt(params["size"]) else Success(kwargs["size"]);
    if size.Failure? {
      assert SfKwargs(params, cores, chunksize) == Failure(size.error);
      return Failure(size.error);
    }
    kwargs := kwargs["size" := size.value];
    assert kwargs == SfKwargs(params, cores, chunksize).value;
    r := Success(kwargs);
  }

  /** A stack of sinograms. */
  type Stack = seq<Slice>

  /** `tomopy.prep.stripe.remove_stripe_fw/_ti/_sf(data, **kwargs)` */
  datatype Kernels = Kernels(
    fw: (Stack, map<string, Value>) -> Stack,
    ti: (Stack, map<string, Value>) -> Stack,
    sf: (Stack, map<string, Value>) -> Stack)

  /** A kernel applied with resolved keyword arguments, or their error. */
  function Run(kernel: (Stack, map<string, Value>) -> Stack, data: Stack, kwargs: Result<map<string, Value>, PyError>): Result<Stack, PyError>
  {
    match kwargs
    case Failure(e) => Failure(e)
    case Success(kw) => Success(kernel(data, kw))
  }

  /** `execute`: runs the wavelet-Fourier method if its parameters are
      given, else Titarenko's if given, else the smoothing filter if given,
      and returns the data unchanged when none is. At most one method
      runs. */
  method Execute(data: Stack, wf: Option<Params>, ti: Option<Params>, sf: Option<Params>,
                 cores: Value, chunksize: Value, b: Builtins, tomopy: Kernels)
    returns (r: Result<Stack, PyError>)
    ensures Given(wf) ==> r == Run(tomopy.fw, data, WfResolved(wf.value, cores, chunksize, b))
    ensures !Given(wf) && Given(ti) ==> r == Run(tomopy.ti, data, TiResolved(ti.value, cores, chunksize, b))
    ensures !Given(wf) && !Given(ti) && Given(sf) ==> r == Run(tomopy.sf, data, SfResolved(sf.value, cores, chunksize))
    ensures !Given(wf) && !Given(ti) && !Given(sf) ==> r == Success(data)
  {
    if Given(wf) {
      var kwargs := Wf(wf.value, cores, chunksize, b);
      r := Run(tomopy.fw, data, kwargs);
    } else if Given(ti) {
      var kwargs := Ti(ti.value, cores, chunksize, b);
      r := Run(tomopy.ti, data, kwargs);
    } else if Given(sf) {
      var kwargs := Sf(sf.value, cores, chunksize);
      r := Run(tomopy.sf, data, kwargs);
    } else {
      r := Success(data);
    }
  }
}
