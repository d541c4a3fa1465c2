/**
 * The decorators that mark a plugin method as a handler: each tags the
 * function with its handler type and stores the list of commands, user
 * events or server replies it answers. Python values that can reach a
 * decorator are modelled by `PyValue`; a function object by the
 * attributes set on it.
 */
module PluginDecorators {
  import opened Wrappers

  /** The Python values a decorator argument or a function attribute can hold. */
  datatype PyValue =
    | PyNone
    | PyInt(i: int)
    | PyStr(s: string)
    | PyList(items: seq<PyValue>)
    | PyTuple(items: seq<PyValue>)

  const TypeCommand: int := 1
  const TypeUserEvent: int := 2
  const TypeServerEvent: int := 3

  /** The attribute the plugin manager reads to find handlers. */
  const HandlerTypeAttr: string := "handler_type"

  /** A plain function object as a class body holds it, with its attributes. */
  datatype FunctionObject = FunctionObject(attrs: map<string, PyValue>)

  /** Why applying a decorator raised. */
  datatype DecoratorError = AttributeMissing(name: string)

  /** `[x] if type(x) is str else x` */
  function WrapStr(v: PyValue): (r: PyValue)
    ensures v.PyStr? ==> r == PyList([v])
    ensures !v.PyStr? ==> r == v
  {
    if v.PyStr? then PyList([v]) else v
  }

  /** `[x] if type(x) is int else x` */
  function WrapInt(v: PyValue): (r: PyValue)
    ensures v.PyInt? ==> r == PyList([v])
    ensures !v.PyInt? ==> r == v
  {
    if v.PyInt? then PyList([v]) else v
  }

  /** The decorators as written: the type tag and the matcher list are set,
      and then `func.im_class` is read. A function in a class body is not
      yet a method and has no `im_class`, so every application raises
      `AttributeError` and no class using a decorator can be defined.
      (A function given an `im_class` attribute by hand gets through,
      tagged only with `type`.) */
  function DecorateAsWritten(tag: int, key: string, matchers: PyValue, f: FunctionObject): (r: Result<FunctionObject, DecoratorError>)
    ensures "im_class" !in f.attrs && key != "im_class" ==> r == Err(AttributeMissing("im_class"))
  {
    var tagged := f.attrs["type" := PyInt(tag)][key := matchers];
    if "im_class" in tagged then Ok(FunctionObject(tagged)) else Err(AttributeMissing("im_class"))
  }

  /** A decorator that does not raise on a plain function: it tags the
      function under the name the manager reads, keeps the `type` tag, and
      stores the matchers. */
  function Decorate(tag: int, key: string, matchers: PyValue, f: FunctionObject): (r: FunctionObject)
    requires key != HandlerTypeAttr && key != "type"
    ensures r.attrs.Keys == f.attrs.Keys + {HandlerTypeAttr, "type", key}
    ensures r.attrs[HandlerTypeAttr] == PyInt(tag) && r.attrs["type"] == PyInt(tag)
    ensures r.attrs[key] == matchers
    ensures forall a :: a in f.attrs && a != HandlerTypeAttr && a != "type" && a != key ==> r.attrs[a] == f.attrs[a]
  {
    FunctionObject(f.attrs["type" := PyInt(tag)][HandlerTypeAttr := PyInt(tag)][key := matchers])
  }

  function CommandAsWritten(command: PyValue, f: FunctionObject): (r: Result<FunctionObject, DecoratorError>)
    ensures "im_class" !in f.attrs ==> r == Err(AttributeMissing("im_class"))
  {
    DecorateAsWritten(TypeCommand, "command", WrapStr(command), f)
  }

  function UserEventAsWritten(event: PyValue, f: FunctionObject): (r: Result<FunctionObject, DecoratorError>)
    ensures "im_class" !in f.attrs ==> r == Err(AttributeMissing("im_class"))
  {
    DecorateAsWritten(TypeUserEvent, "event", WrapStr(event), f)
  }

  function ServerReplyAsWritten(code: PyValue, f: FunctionObject): (r: Result<FunctionObject, DecoratorError>)
    ensures "im_class" !in f.attrs ==> r == Err(AttributeMissing("im_class"))
  {
    DecorateAsWritten(TypeServerEvent, "event", WrapInt(code), f)
  }

  /** `@command(c)`: a command handler answering the one command `c` when
      it is a string, and otherwise each item of `c` as given. */
  function Command(command: PyValue, f: FunctionObject): (r: FunctionObject)
    ensures HandlerTypeAttr in r.attrs && r.attrs[HandlerTypeAttr] == PyInt(1) && "command" in r.attrs
    ensures command.PyStr? ==> r.attrs["command"] == PyList([command])
    ensures !command.PyStr? ==> r.attrs["command"] == command
  {
    Decorate(TypeCommand, "command", WrapStr(command), f)
  }

  /** `@userevent(e)`: a user-event handler; an event name is wrapped in a
      list and other values are kept. */
  function UserEvent(event: PyValue, f: FunctionObject): (r: FunctionObject)
    ensures HandlerTypeAttr in r.attrs && r.attrs[HandlerTypeAttr] == PyInt(2) && "event" in r.attrs
    ensures event.PyStr? ==> r.attrs["event"] == PyList([event])
    ensures !event.PyStr? ==> r.attrs["event"] == event
  {
    Decorate(TypeUserEvent, "event", WrapStr(event), f)
  }

  /** `@serverreply(code)`: a server-reply handler; only an integer code is
      wrapped, and a string such as `'001'` is stored as it is. */
  function ServerReply(code: PyValue, f: FunctionObject): (r: FunctionObject)
    ensures HandlerTypeAttr in r.attrs && r.attrs[HandlerTypeAttr] == PyInt(3) && "event" in r.attrs
    ensures code.PyInt? ==> r.attrs["event"] == PyList([code])
    ensures !code.PyInt? ==> r.attrs["event"] == code
  {
    Decorate(TypeServerEvent, "event", WrapInt(code), f)
  }
}
