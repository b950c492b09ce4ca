/**
 * The bridging server's error helpers: how a thrown value becomes a message,
 * how a response's error list becomes a message, and the tool result that
 * reports a failure.
 */
module ErrorHandler {
  import opened Js

  /**
   * A thrown value (`unknown`): an instance of `Error`, with its message and
   * any further own properties (`code`, `context`, ...), or any other value.
   */
  datatype Thrown =
    | ErrorInstance(message: string, own: Props)
    | Other(v: Value)

  const NovaPoshtaPrefix := "Nova Poshta API error ("
  const UnknownError := "Unknown error"
  const DefaultPrefix := "Failed to execute tool"

  /** `typeof v === 'object'` (which holds for `null` too). */
  predicate IsObjectType(v: Value) {
    v.Null? || v.Arr? || v.Obj?
  }

  /** `key in v` for a value that is not an `Error`. */
  predicate HasProperty(v: Value, key: string) {
    v.Obj? && key in v.fields
  }

  /**
   * `isNovaPoshtaError(error)`: truthy, an object, with `code` and `message`.
   * An `Error` always has `message`, so only `code` decides for it.
   */
  function IsNovaPoshtaError(error: Thrown): (r: bool)
    ensures r <==> || (error.ErrorInstance? && "code" in error.own)
                   || (error.Other? && error.v.Obj? && "code" in error.v.fields && "message" in error.v.fields)
  {
    match error
    case ErrorInstance(_, own) => "code" in own
    case Other(v) => Truthy(v) && IsObjectType(v) && HasProperty(v, "code") && HasProperty(v, "message")
  }

  /** `error[key]`, reading an `Error`'s message from the instance. */
  function Get(error: Thrown, key: string): (r: Value)
    ensures error.ErrorInstance? && key == "message" ==> r == Str(error.message)
    ensures error.Other? && error.v.Obj? && key in error.v.fields ==> r == error.v.fields[key]
  {
    match error
    case ErrorInstance(message, own) =>
      if key == "message" then Str(message) else if key in own then own[key] else Undefined
    case Other(v) =>
      if v.Obj? && key in v.fields then v.fields[key] else Undefined
  }

  /** ` Context: <JSON>` when the error carries a truthy context, otherwise nothing. */
  function ContextSuffix(context: Value, stringify: Value -> string): (r: string)
    ensures !Truthy(context) <==> r == ""
  {
    if Truthy(context) then " Context: " + stringify(context) else ""
  }

  /**
   * `formatError(error)`. `JSON.stringify` is the parameter `stringify`; the
   * model says nothing about the text it produces.
   */
  function FormatError(error: Thrown, stringify: Value -> string): (r: string)
    ensures IsNovaPoshtaError(error) ==> StartsWith(r, NovaPoshtaPrefix)
    ensures !IsNovaPoshtaError(error) && error.ErrorInstance? ==> r == error.message
    ensures error.Other? && error.v.Str? ==> r == error.v.s
    ensures error.Other? && !error.v.Str? && !IsNovaPoshtaError(error) ==> r == UnknownError
  {
    if IsNovaPoshtaError(error) then
      var text := NovaPoshtaPrefix + ToText(Get(error, "code")) + "): " + ToText(Get(error, "message")) + ".";
      assert text[..|NovaPoshtaPrefix|] == NovaPoshtaPrefix;
      var r := text + ContextSuffix(Get(error, "context"), stringify);
      assert r[..|text|] == text;
      r
    else if error.ErrorInstance? then error.message
    else if error.v.Str? then error.v.s
    else UnknownError
  }

  /**
   * An `Error` that carries a `code` takes the Nova Poshta branch before the
   * plain `Error` branch: its code and message both appear, and the context
   * suffix follows exactly when the context is truthy.
   */
  lemma CodedErrorTakesNovaPoshtaBranch(message: string, own: Props, stringify: Value -> string)
    requires "code" in own
    ensures var context := if "context" in own then own["context"] else Undefined;
            FormatError(ErrorInstance(message, own), stringify)
            == NovaPoshtaPrefix + ToText(own["code"]) + "): " + message + "." + ContextSuffix(context, stringify)
  {
  }

  /**
   * A plain object with both `code` and `message` takes the Nova Poshta
   * branch: both values appear as `String` writes them, then the context
   * suffix when the context is truthy.
   */
  lemma PlainObjectTakesNovaPoshtaBranch(fields: map<string, Value>, stringify: Value -> string)
    requires "code" in fields && "message" in fields
    ensures var context := if "context" in fields then fields["context"] else Undefined;
            FormatError(Other(Obj(fields)), stringify)
            == NovaPoshtaPrefix + ToText(fields["code"]) + "): " + ToText(fields["message"]) + "."
               + ContextSuffix(context, stringify)
  {
  }

  /** Without a truthy context, the Nova Poshta text does not depend on how values are serialised. */
  lemma NoContextNoSerialisation(error: Thrown, s1: Value -> string, s2: Value -> string)
    requires !Truthy(Get(error, "context"))
    ensures FormatError(error, s1) == FormatError(error, s2)
  {
  }

  /** A plain object needs both keys; with either missing it is an unknown error. */
  lemma PlainObjectNeedsBothKeys(fields: map<string, Value>, stringify: Value -> string)
    requires "code" !in fields || "message" !in fields
    ensures FormatError(Other(Obj(fields)), stringify) == UnknownError
  {
  }

  // ---------------------------------------------------------------------------

  /** `formatResponseErrors(errors, fallback)`. */
  function FormatResponseErrors(errors: Value, fallback: string): (r: string)
    ensures !(errors.Arr? && |errors.items| > 0) ==> r == fallback
    ensures errors.Arr? && |errors.items| == 1 ==> r == ElementText(errors.items[0])
  {
    if errors.Arr? && |errors.items| > 0 then Join(ElementTexts(errors.items), ", ") else fallback
  }

  /** Each element as `join` converts it. */
  function ElementTexts(items: seq<Value>): (r: seq<string>)
    ensures |r| == |items|
    ensures forall i :: 0 <= i < |items| ==> r[i] == ElementText(items[i])
  {
    seq(|items|, i requires 0 <= i < |items| => ElementText(items[i]))
  }

  /** A list of strings is joined as written, with ", " between neighbours. */
  lemma StringErrorsJoined(errors: seq<string>, e: string, fallback: string)
    requires |errors| > 0
    ensures FormatResponseErrors(Arr(Strs(errors + [e])), fallback)
            == FormatResponseErrors(Arr(Strs(errors)), fallback) + ", " + e
  {
    assert ElementTexts(Strs(errors + [e])) == ElementTexts(Strs(errors)) + [e];
    JoinSnoc(ElementTexts(Strs(errors)), e, ", ");
  }

  /** The message for `n` string errors is their lengths plus `n - 1` separators long. */
  lemma StringErrorsLength(errors: seq<string>, fallback: string)
    requires |errors| > 0
    ensures |FormatResponseErrors(Arr(Strs(errors)), fallback)| == SumLengths(errors) + 2 * (|errors| - 1)
  {
    assert ElementTexts(Strs(errors)) == errors;
    JoinLength(errors, ", ");
  }

  /** Strings as values. */
  function Strs(xs: seq<string>): (r: seq<Value>)
    ensures |r| == |xs| && forall i :: 0 <= i < |xs| ==> r[i] == Str(xs[i])
  {
    seq(|xs|, i requires 0 <= i < |xs| => Str(xs[i]))
  }

  // ---------------------------------------------------------------------------

  /** One item of a tool result's `content`. */
  datatype Content = Content(kind: string, text: string)

  /** `CallToolResult` as the error helper builds it. */
  datatype ToolResult = ToolResult(content: seq<Content>, isError: bool)

  /** `toErrorResult(error, prefix = 'Failed to execute tool')`. */
  function ToErrorResult(error: Thrown, stringify: Value -> string, prefix: string := DefaultPrefix): (r: ToolResult)
    ensures r.isError
    ensures |r.content| == 1 && r.content[0].kind == "text"
    ensures StartsWith(r.content[0].text, prefix + ": ")
    ensures r.content[0].text[|prefix| + 2..] == FormatError(error, stringify)
  {
    var text := prefix + ": " + FormatError(error, stringify);
    assert text[..|prefix| + 2] == prefix + ": ";
    ToolResult([Content("text", text)], true)
  }

  /** A thrown string is reported verbatim after the prefix. */
  lemma ThrownStringReported(s: string, stringify: Value -> string)
    ensures ToErrorResult(Other(Str(s)), stringify).content[0].text == DefaultPrefix + ": " + s
  {
  }

  /** Anything that is neither an error nor a string reports "Unknown error". */
  lemma ThrownPrimitiveReported(v: Value, stringify: Value -> string)
    requires !v.Str? && !v.Obj?
    ensures ToErrorResult(Other(v), stringify).content[0].text == DefaultPrefix + ": " + UnknownError
  {
  }
}
