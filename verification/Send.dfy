/** `StackFlow::send` of infra-controller/include/StackFlow.h where a node reports an error with it. */
module SendModel {
  import opened Common

  /** A JSON value that a caller passes: a text, or an object with an error code. */
  datatype Json = Text(text: string) | Body(code: int)

  /** The conversion to a string that the third parameter of `send` asks for; `None` is its `type_error`. */
  function AsString(j: Json): Option<string> {
    match j
    case Text(text) => Some(text)
    case Body(_) => None
  }

  /** How a function ends that can throw. */
  datatype Answer = Returned(code: int) | Thrown

  /** `send("None", "None", error, ...); return code;` */
  function SendThenReturn(error: Json, code: int): Answer {
    if AsString(error).None? then Thrown else Returned(code)
  }

  /** A caller that builds its error as a JSON object never returns its code. */
  lemma RefusalThrows(error: int, code: int)
    ensures SendThenReturn(Body(error), code) == Thrown
  {
  }
}
