/** The `Tool` class of agents/tools/tools.py and the `tool` decorator that
    reads a function's signature and docstring into one. A Python function
    is described by what `inspect` reports about it; its body is a function
    from positional arguments to a result. */
module ToolDescriptor {
  import opened Wrappers
  import opened Json
  import opened Text

  /** An annotation as `inspect` reports it: none (the class
      `inspect._empty`), one with a `__name__`, or another object, shown by
      `str`. */
  datatype Annotation = Missing | Named(name: string) | Other(repr: string)

  /** `a.__name__` if it has one, else `str(a)`. */
  function AnnotationName(a: Annotation): string
  {
    match a
    case Missing => "_empty"
    case Named(n) => n
    case Other(r) => r
  }

  datatype Param = Param(name: string, annotation: Annotation)

  /** What `tool` reads off a function: `__name__`, `__doc__`, the parameters
      in signature order, the return annotation, and the body. */
  datatype PyFunction = PyFunction(
    name: string, doc: Option<string>, params: seq<Param>, returnAnnotation: Annotation,
    body: seq<JsonValue> -> JsonValue)

  /** `f"{arg_name}: {arg_type}"`. */
  function ArgText(arg: (string, string)): string
  {
    arg.0 + ": " + arg.1
  }

  /** The `args_str` of `to_string`. */
  function ArgsText(args: seq<(string, string)>): string
  {
    Join(seq(|args|, k requires 0 <= k < |args| => ArgText(args[k])), ", ")
  }

  /** No arguments give an empty segment; one more argument adds ", " and
      its "name: type" at the end, so the pairs appear in order. */
  lemma ArgsTextAppend(args: seq<(string, string)>, arg: (string, string))
    ensures ArgsText([]) == ""
    ensures ArgsText(args + [arg]) == if args == [] then ArgText(arg) else ArgsText(args) + ", " + ArgText(arg)
  {
    var xs := seq(|args|, k requires 0 <= k < |args| => ArgText(args[k]));
    var ys := seq(|args + [arg]|, k requires 0 <= k < |args + [arg]| => ArgText((args + [arg])[k]));
    assert ys == xs + [ArgText(arg)];
    if args != [] {
      JoinAppend(xs, ArgText(arg), ", ");
    }
  }

  /** The text `to_string` renders from a tool's fields. */
  function Render(name: string, description: string, args: seq<(string, string)>, outputs: string): string
  {
    "Tool Name: " + name + ", Description: " + description + ", Arguments: " + ArgsText(args) + ", Outputs: " + outputs
  }

  /** The rendering starts with the name and ends with the outputs, each in
      its labelled segment. */
  lemma RenderSegments(name: string, description: string, args: seq<(string, string)>, outputs: string)
    ensures var r := Render(name, description, args, outputs);
      && StartsWith(r, "Tool Name: " + name + ", Description: ")
      && |r| >= |", Outputs: " + outputs|
      && r[|r| - |", Outputs: " + outputs|..] == ", Outputs: " + outputs
  {
    var r := Render(name, description, args, outputs);
    var head := "Tool Name: " + name + ", Description: ";
    var tail := ", Outputs: " + outputs;
    assert r == head + (description + ", Arguments: " + ArgsText(args)) + tail;
    assert r[..|head|] == head;
  }

  class Tool {
    var name: string
    var description: string
    var func: seq<JsonValue> -> JsonValue
    var args: seq<(string, string)>
    var outputs: string

    /** `Tool.__init__` stores its arguments. */
    constructor (name: string, description: string, func: seq<JsonValue> -> JsonValue, args: seq<(string, string)>, outputs: string)
      ensures this.name == name && this.description == description && this.func == func
      ensures this.args == args && this.outputs == outputs
    {
      this.name := name;
      this.description := description;
      this.func := func;
      this.args := args;
      this.outputs := outputs;
    }

    /** `to_string`. */
    function ToString(): (r: string)
      reads this
      ensures StartsWith(r, "Tool Name: " + name + ", Description: ")
      ensures r == Render(name, description, args, outputs)
    {
      RenderSegments(name, description, args, outputs);
      Render(name, description, args, outputs)
    }

    /** `__call__` forwards to the wrapped function. */
    method Call(arguments: seq<JsonValue>) returns (r: JsonValue)
      ensures r == func(arguments)
    {
      r := func(arguments);
    }
  }

  /** The `(name, type)` pair `tool` records for a parameter. */
  function ArgOf(p: Param): (string, string)
  {
    (p.name, AnnotationName(p.annotation))
  }

  /** `outputs` as `tool` computes it. */
  function Outputs(returnAnnotation: Annotation): (r: string)
    ensures returnAnnotation == Missing ==> r == "No return annotation"
    ensures returnAnnotation.Named? ==> r == returnAnnotation.name
  {
    if returnAnnotation == Missing then "No return annotation" else AnnotationName(returnAnnotation)
  }

  /** `func.__doc__ or "No description provided."`. */
  function Description(doc: Option<string>): (r: string)
    ensures r != ""
    ensures doc.Some? && doc.value != "" ==> r == doc.value
  {
    if doc.None? || doc.value == "" then "No description provided." else doc.value
  }

  /** The `tool` decorator, with the `args` list grown by its loop. */
  method MakeTool(f: PyFunction) returns (t: Tool)
    ensures fresh(t)
    ensures t.name == f.name && t.func == f.body
    ensures t.description == Description(f.doc) && t.outputs == Outputs(f.returnAnnotation)
    ensures |t.args| == |f.params|
    ensures forall k :: 0 <= k < |f.params| ==> t.args[k] == ArgOf(f.params[k])
  {
    var args: seq<(string, string)> := [];
    for k := 0 to |f.params|
      invariant |args| == k
      invariant forall j :: 0 <= j < k ==> args[j] == ArgOf(f.params[j])
    {
      args := args + [ArgOf(f.params[k])];
    }
    t := new Tool(f.name, Description(f.doc), f.body, args, Outputs(f.returnAnnotation));
  }
}
