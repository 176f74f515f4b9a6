/** The image-operator run mode (imopr/runner.py): the `--imopr` tokens
    name an action, last, preceded by the indices it works on. */
module ImoprRunner {
  import opened Wrappers
  import opened PyRuntime
  import opened PyText
  import FunctionalConfig

  /** Messages of the errors Python raises on a missing command list or an
      unknown command name. */
  const NotCallableMessage := "'NoneType' object is not callable"
  const NoPopMessage := "'NoneType' object has no attribute 'pop'"

  /** The `execute` functions of the imopr sub-modules. */
  datatype Action = Recon | Sinogram | Visualiser | Cor | CorVo | CorPc | CorWrite

  /** The names `get_function` recognises, each with its action. */
  const CommandTable: seq<(string, Action)> := [
    ("recon", Recon), ("sino", Sinogram), ("show", Visualiser), ("vis", Visualiser),
    ("cor", Cor), ("corvo", CorVo), ("corpc", CorPc), ("corwrite", CorWrite)]

  /** `get_function`: the action a name selects; "show" and "vis" select
      the visualiser, every other recognised name an action of its own, and
      an unknown name nothing. */
  function GetFunction(name: string): (r: Option<Action>)
    ensures r.Some? ==> (name, r.value) in CommandTable
    ensures r.None? ==> forall a :: (name, a) !in CommandTable
    ensures r == Some(Visualiser) <==> name == "show" || name == "vis"
  {
    if name == "recon" then Some(Recon)
    else if name == "sino" then Some(Sinogram)
    else if name == "show" || name == "vis" then Some(Visualiser)
    else if name == "cor" then Some(Cor)
    else if name == "corvo" then Some(CorVo)
    else if name == "corpc" then Some(CorPc)
    else if name == "corwrite" then Some(CorWrite)
    else None
  }

  /** Apart from the "show"/"vis" alias, different names select different
      actions. */
  lemma {:induction false} GetFunctionDistinct(a: string, b: string)
    requires GetFunction(a).Some? && GetFunction(a) == GetFunction(b)
    ensures a == b || ({a, b} == {"show", "vis"})
  {
    assert (a, GetFunction(a).value) in CommandTable;
    assert (b, GetFunction(b).value) in CommandTable;
  }

  /** What `execute` hands to the selected action: the action and the
      indices. */
  datatype Command = Command(action: Action, indices: seq<int>)

  /** The command line `tokens` stands for: the last token names the
      action, the ones before it are integer indices in their order. A
      non-integer index raises ValueError; an unknown name is None, which
      raises TypeError once it is called. */
  function Dispatch(tokens: seq<string>): (r: Result<Command, PyError>)
    requires |tokens| > 0
    ensures r.Success? <==> GetFunction(tokens[|tokens| - 1]).Some?
                            && forall i :: 0 <= i < |tokens| - 1 ==> IsIntLiteral(tokens[i])
    ensures r.Success? ==> r.value.action == GetFunction(tokens[|tokens| - 1]).value
                           && |r.value.indices| == |tokens| - 1
                           && forall i :: 0 <= i < |tokens| - 1 ==> ParseInt(tokens[i]) == Some(r.value.indices[i])
    ensures forall k :: 0 <= k < |tokens| - 1 && !IsIntLiteral(tokens[k])
                        && (forall j :: 0 <= j < k ==> IsIntLiteral(tokens[j]))
                        ==> r == Failure(InvalidIntLiteral(tokens[k]))
    ensures (forall i :: 0 <= i < |tokens| - 1 ==> IsIntLiteral(tokens[i])) && GetFunction(tokens[|tokens| - 1]).None?
            ==> r == Failure(TypeError(NotCallableMessage))
  {
    var action := GetFunction(tokens[|tokens| - 1]);
    match ParseInts(tokens[..|tokens| - 1])
    case Failure(bad) => Failure(InvalidIntLiteral(bad))
    case Success(indices) =>
      if action.None? then Failure(TypeError(NotCallableMessage))
      else Success(Command(action.value, indices))
  }

  /** The indices written out in decimal followed by a known action name
      dispatch to exactly that action and those indices. */
  lemma DispatchOfCommandLine(indices: seq<int>, name: string)
    requires GetFunction(name).Some?
    ensures Dispatch(IntStrings(indices) + [name]) == Success(Command(GetFunction(name).value, indices))
  {
    var tokens := IntStrings(indices) + [name];
    assert tokens[..|tokens| - 1] == IntStrings(indices);
    ParseIntsOfIntStrings(indices);
  }

  /** `execute`: pops the action name off the configuration's own imopr
      list (so the list keeps only the indices afterwards) and dispatches.
      Helper set-up, loading the data and running the action are not part
      of this model. */
  method Execute(config: FunctionalConfig.FunctionalConfig) returns (r: Result<Command, PyError>)
    modifies config`imopr
    ensures old(config.imopr).None? ==> config.imopr.None? && r.Failure? && r.error.AttributeError?
    ensures old(config.imopr) == Some([]) ==> config.imopr == Some([]) && r == Failure(IndexError)
    ensures old(config.imopr).Some? && |old(config.imopr).value| > 0 ==>
              var tokens := old(config.imopr).value;
              config.imopr == Some(tokens[..|tokens| - 1]) && r == Dispatch(tokens)
  {
    var commands := config.imopr;
    if commands.None? {
      return Failure(AttributeError(NoPopMessage));
    }
    if |commands.value| == 0 {
      return Failure(IndexError);
    }
    var tokens := commands.value;
    var name := tokens[|tokens| - 1];
    config.imopr := Some(tokens[..|tokens| - 1]);
    var action := GetFunction(name);
    var parsed := ParseInts(config.imopr.value);
    if parsed.Failure? {
      return Failure(InvalidIntLiteral(parsed.error));
    }
    if action.None? {
      return Failure(TypeError(NotCallableMessage));
    }
    r := Success(Command(action.value, parsed.value));
  }
}
