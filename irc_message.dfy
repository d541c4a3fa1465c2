/**
 * The protocol-independent message of luckybot/protocols/base.py: a kind,
 * the raw line, and whatever keyword arguments the parser attached. Reading
 * an attribute the message does not carry raises AttributeError, modelled
 * as `None`.
 */
module IrcMessage {
  import opened Wrappers

  /** `RAW_MESSAGE`, `USER_MESSAGE`, `SERVER_MESSAGE` */
  datatype Kind = RawMessage | UserMessage | ServerMessage

  /** The integer constants the source uses for the three kinds. */
  function KindCode(k: Kind): (code: nat)
    ensures code <= 2
  {
    match k
    case RawMessage => 0
    case UserMessage => 1
    case ServerMessage => 2
  }

  /** Distinct kinds have distinct codes. */
  lemma KindCodeInjective(a: Kind, b: Kind)
    requires KindCode(a) == KindCode(b)
    ensures a == b
  {
  }

  /** The value of an attribute: the kind for `type`, text for the rest. */
  datatype Value = KindValue(kind: Kind) | Text(text: string)

  /** `kwargs` never holds `type` or `raw`: those are the positional parameters. */
  datatype Message = Message(kind: Kind, raw: string, extra: map<string, string>)

  /** `Message(type, raw, **kwargs)` */
  function NewMessage(kind: Kind, raw: string, kwargs: map<string, string>): (m: Message)
    requires "type" !in kwargs && "raw" !in kwargs
    ensures GetAttr(m, "type") == Some(KindValue(kind))
    ensures GetAttr(m, "raw") == Some(Text(raw))
  {
    Message(kind, raw, kwargs)
  }

  /** Every other attribute is the keyword argument of that name, and
      reading one that was not passed raises. */
  lemma NewMessageAttr(kind: Kind, raw: string, kwargs: map<string, string>, name: string)
    requires "type" !in kwargs && "raw" !in kwargs
    requires name != "type" && name != "raw"
    ensures GetAttr(NewMessage(kind, raw, kwargs), name) ==
      if name in kwargs then Some(Text(kwargs[name])) else None
  {
  }

  /** `Message.__getattr__`: the stored value, or `None` where Python raises AttributeError. */
  function GetAttr(m: Message, name: string): (r: Option<Value>)
    ensures r.None? <==> name != "type" && name != "raw" && name !in m.extra
    ensures r.Some? ==> (r.value.KindValue? <==> name == "type")
  {
    if name == "type" then Some(KindValue(m.kind))
    else if name == "raw" then Some(Text(m.raw))
    else if name in m.extra then Some(Text(m.extra[name]))
    else None
  }

  /** `hasattr(message, name)` */
  predicate HasAttr(m: Message, name: string) {
    GetAttr(m, name).Some?
  }

  /** A text attribute, or the empty string when the message lacks it. */
  function TextAttr(m: Message, name: string): string {
    match GetAttr(m, name)
    case Some(Text(t)) => t
    case _ => ""
  }

  /** `Message.__str__` */
  function Str(m: Message): (r: string)
    ensures r == m.raw
  {
    TextAttr(m, "raw")
  }

  /** Printing a message gives back the line it was built from. */
  lemma StrIsRaw(kind: Kind, raw: string, kwargs: map<string, string>)
    requires "type" !in kwargs && "raw" !in kwargs
    ensures Str(NewMessage(kind, raw, kwargs)) == raw
  {
  }
}
