/** The document nodes the transformer hands back to the host, its error
    outcomes, and how results of consecutive renderings are joined. */
module Docs {

  /** The docutils nodes the transformer builds.  A call of a Sphinx C-domain
      directive is kept as one opaque `Directive` node holding the directive's
      name (`function`, `macro`, `type` or `member`), its single argument (the
      usage string) and its content lines. */
  datatype Node =
    | Section(ids: string, children: seq<Node>)
    | Title(text: string)
    | Warning(text: string)
    | ReporterWarning(message: string, line: int)
    | Directive(domainKind: string, usage: string, contents: seq<string>)

  /** The hard failures: each stops the whole rendering. */
  datatype Error =
    | CannotHandle(tag: string, kind: string)   // a failed assert, "cannot handle <tag> kind=<kind>"
    | MissingAttribute(name: string)            // KeyError on node.attrib[name]
    | MissingText(tag: string)                  // IndexError on ./<tag>/text()[0]
    | MissingDocument(refid: string)            // etree.parse of <refid>.xml fails
    | RecursionLimit                            // documents that load each other without end
    | MissingConfig                             // AsphyxiateError from the entry directive

  /** The message an error carries, where the source writes it out. */
  function Message(e: Error): (m: string)
    ensures e.CannotHandle? ==> m == "cannot handle " + e.tag + " kind=" + e.kind
    ensures e.MissingConfig? ==> m == "missing config setting asphyxiate_doxygen_xml"
  {
    match e
    case CannotHandle(tag, kind) => "cannot handle " + tag + " kind=" + kind
    case MissingAttribute(name) => name
    case MissingText(_) => "list index out of range"
    case MissingDocument(refid) => refid
    case RecursionLimit => "maximum recursion depth exceeded"
    case MissingConfig => "missing config setting asphyxiate_doxygen_xml"
  }

  datatype Result<T> = Ok(value: T) | Err(error: Error) {
    predicate IsFailure() { Err? }

    function PropagateFailure<U>(): Result<U>
      requires Err?
    {
      Err(error)
    }

    function Extract(): T
      requires Ok?
    {
      value
    }
  }

  /** Draining one generator after another: the items of both in order, or
      the first failure met. */
  function Then(a: Result<seq<Node>>, b: Result<seq<Node>>): (r: Result<seq<Node>>)
    ensures a.Err? ==> r == a
    ensures a.Ok? && b.Err? ==> r == b
    ensures a.Ok? && b.Ok? ==> r == Ok(a.value + b.value)
  {
    match a
    case Err(_) => a
    case Ok(x) =>
      match b
      case Err(_) => b
      case Ok(y) => Ok(x + y)
  }

  lemma ThenAssociative(a: Result<seq<Node>>, b: Result<seq<Node>>, c: Result<seq<Node>>)
    ensures Then(Then(a, b), c) == Then(a, Then(b, c))
  {
    if a.Ok? && b.Ok? && c.Ok? {
      assert (a.value + b.value) + c.value == a.value + (b.value + c.value);
    }
  }

  lemma ThenUnit(a: Result<seq<Node>>)
    ensures Then(Ok([]), a) == a && Then(a, Ok([])) == a
  {
    if a.Ok? {
      assert [] + a.value == a.value && a.value + [] == a.value;
    }
  }
}
