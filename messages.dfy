/** Preparation of the caller's chat messages for the SAI request:
    plugin unwrapping in place, validation of the list's shape, the split of
    a leading system message, and the conversion of the rest to upstream
    records with clock-derived ids. */
module Messages {
  import opened Wrappers
  import opened Json
  import opened Plugin

  /** A chat message in the upstream schema: `{content, role, id}`. */
  datatype UpstreamMessage = UpstreamMessage(content: Value, role: Value, id: int)

  /** Why message preparation fails. All are `ValueError` in the source except
      `NoGetMethod`, the `AttributeError` raised when the character total
      calls `get` on an element that has no such method. */
  datatype PrepareError =
    | EmptyOrNotList
    | NoGetMethod
    | NotADict
    | MissingRoleOrContent

  /** The element offers `get`, so the character total can read its content. */
  predicate HasGet(e: Element) {
    e.Dict? || e.hasGet
  }

  /** A dict holding both a "role" and a "content" key. */
  predicate WellFormed(e: Element) {
    e.Dict? && "role" in e.fields && "content" in e.fields
  }

  /** The element is a dict whose role is the string "system". */
  predicate IsSystem(e: Element) {
    e.Dict? && Get(e.fields, "role", Null) == Str("system")
  }

  /** The element after the unwrapping loop: only the content of a dict whose
      content was detected as wrapped is replaced; nothing else changes. */
  function UnwrapElement(e: Element): (r: Element)
    ensures e.NonDict? ==> r == e
    ensures e.Dict? ==> r.Dict? && r.fields.Keys == e.fields.Keys
    ensures e.Dict? ==> forall k :: k in e.fields && k != "content" ==> r.fields[k] == e.fields[k]
    ensures e.Dict? && "content" in e.fields ==> r.fields["content"] == Unwrap(e.fields["content"])
    ensures r != e ==> e.Dict? && "content" in e.fields && IsWrapped(e.fields["content"])
  {
    match e
    case NonDict(_) => e
    case Dict(fields) =>
      if "content" in fields then
        var (isPluginMsg, originalContent) := ExtractPluginWrappedMessage(fields["content"]);
        if isPluginMsg then Dict(fields["content" := originalContent]) else e
      else e
  }

  /** The error the shape checks of lines 147-151 raise: the first element,
      in order, that is not a dict or lacks "role" or "content". */
  function ShapeError(s: seq<Element>): (r: Option<PrepareError>)
    ensures r.None? <==> forall i :: 0 <= i < |s| ==> WellFormed(s[i])
    ensures r.Some? ==>
      exists i :: (0 <= i < |s| && !WellFormed(s[i])
                   && (forall j :: 0 <= j < i ==> WellFormed(s[j]))
                   && r.value == (if s[i].NonDict? then NotADict else MissingRoleOrContent))
  {
    if s == [] then None
    else if s[0].NonDict? then Some(NotADict)
    else if !WellFormed(s[0]) then Some(MissingRoleOrContent)
    else ShapeError(s[1..])
  }

  /** The error raised for a non-empty list after unwrapping: the character
      total of line 134 fails first on an element without `get`; then the
      shape checks run. */
  function StructureError(s: seq<Element>): (r: Option<PrepareError>)
    ensures r.None? <==> forall i :: 0 <= i < |s| ==> WellFormed(s[i])
    ensures r == Some(NoGetMethod) <==> exists i :: 0 <= i < |s| && !HasGet(s[i])
    ensures (forall i :: 0 <= i < |s| ==> HasGet(s[i])) ==> r == ShapeError(s)
  {
    if exists i :: 0 <= i < |s| && !HasGet(s[i]) then Some(NoGetMethod) else ShapeError(s)
  }

  /** The upstream record for the element at position `idx` of the processed
      messages, given the clock reading taken for it. */
  function ToRecord(e: Element, idx: nat, reading: int): UpstreamMessage
    requires e.Dict?
  {
    UpstreamMessage(Get(e.fields, "content", Str("")), Get(e.fields, "role", Null), reading + idx)
  }

  /** What `_prepare_messages` returns for the list `s` as it stands after the
      unwrapping loop: an error, or the system prompt and the upstream records.
      `clock(i)` is the millisecond clock reading taken for the i-th record. */
  function Normalize(s: seq<Element>, clock: nat -> int): (r: Result<(Value, seq<UpstreamMessage>), PrepareError>)
    ensures s == [] ==> r == Failure(EmptyOrNotList)
    ensures r.Success? <==> s != [] && forall i :: 0 <= i < |s| ==> WellFormed(s[i])
    ensures s != [] && r.Failure? ==> Some(r.error) == StructureError(s)
    ensures r.Success? && IsSystem(s[0]) ==>
      r.value.0 == s[0].fields["content"] && |r.value.1| == |s| - 1
    ensures r.Success? && !IsSystem(s[0]) ==>
      r.value.0 == Str("") && |r.value.1| == |s|
    ensures r.Success? ==>
      var skip := |s| - |r.value.1|;
      forall i :: 0 <= i < |r.value.1| ==>
        r.value.1[i] == UpstreamMessage(s[i + skip].fields["content"], s[i + skip].fields["role"], clock(i) + i)
  {
    if s == [] then Failure(EmptyOrNotList)
    else match StructureError(s)
      case Some(err) => Failure(err)
      case None =>
        var (system, processed) := if IsSystem(s[0]) then (s[0].fields["content"], s[1..]) else (Str(""), s);
        Success((system, seq(|processed|, i requires 0 <= i < |processed| => ToRecord(processed[i], i, clock(i)))))
  }

  /** Ids are strictly increasing, hence distinct, whenever the clock never
      runs backwards. */
  lemma IdsIncrease(s: seq<Element>, clock: nat -> int, i: nat, j: nat)
    requires forall a: nat, b: nat :: a <= b ==> clock(a) <= clock(b)
    requires Normalize(s, clock).Success?
    requires i < j < |Normalize(s, clock).value.1|
    ensures Normalize(s, clock).value.1[i].id < Normalize(s, clock).value.1[j].id
  {
  }

  /** The unwrapping loop of lines 122-127, in place on the caller's list. */
  method UnwrapPluginMessages(messages: array<Element>)
    modifies messages
    ensures forall i :: 0 <= i < messages.Length ==> messages[i] == UnwrapElement(old(messages[i]))
  {
    ghost var original := messages[..];
    var i := 0;
    while i < messages.Length
      invariant 0 <= i <= messages.Length
      invariant forall j :: 0 <= j < i ==> messages[j] == UnwrapElement(original[j])
      invariant forall j :: i <= j < messages.Length ==> messages[j] == original[j]
    {
      var msg := messages[i];
      label before:
      if msg.Dict? && "content" in msg.fields {
        var (isPluginMsg, originalContent) := ExtractPluginWrappedMessage(msg.fields["content"]);
        if isPluginMsg {
          messages[i] := Dict(msg.fields["content" := originalContent]);
        }
      }
      assert messages[i] == UnwrapElement(original[i]);
      assert forall j :: 0 <= j < messages.Length && j != i ==> messages[j] == old@before(messages[j]);
      i := i + 1;
    }
  }

  /** The character total of line 134 (which only feeds a log line) and the
      validation loop of lines 147-151: returns the error they raise, if any. */
  method CheckStructure(messages: array<Element>) returns (err: Option<PrepareError>)
    ensures err == StructureError(messages[..])
    ensures err.None? <==> forall i :: 0 <= i < messages.Length ==> WellFormed(messages[i])
  {
    var i := 0;
    while i < messages.Length
      invariant 0 <= i <= messages.Length
      invariant forall j :: 0 <= j < i ==> HasGet(messages[j])
    {
      if !HasGet(messages[i]) {
        return Some(NoGetMethod);
      }
      i := i + 1;
    }
    assert StructureError(messages[..]) == ShapeError(messages[..]);
    i := 0;
    while i < messages.Length
      invariant 0 <= i <= messages.Length
      invariant ShapeError(messages[..]) == ShapeError(messages[i..])
    {
      assert messages[i..] == [messages[i]] + messages[i + 1..];
      if messages[i].NonDict? {
        return Some(NotADict);
      }
      if !("role" in messages[i].fields && "content" in messages[i].fields) {
        return Some(MissingRoleOrContent);
      }
      i := i + 1;
    }
    err := None;
  }

  /** The list comprehension of lines 162-166: one record per processed
      message, in order, each id a fresh clock reading plus the position. */
  method ToUpstream(processed: seq<Element>, clock: nat -> int) returns (out: seq<UpstreamMessage>)
    requires forall i :: 0 <= i < |processed| ==> processed[i].Dict?
    ensures |out| == |processed|
    ensures forall i :: 0 <= i < |out| ==>
      && out[i].content == Get(processed[i].fields, "content", Str(""))
      && out[i].role == Get(processed[i].fields, "role", Null)
      && out[i].id == clock(i) + i
  {
    out := [];
    var idx := 0;
    while idx < |processed|
      invariant 0 <= idx <= |processed|
      invariant |out| == idx
      invariant forall i :: 0 <= i < idx ==> out[i] == ToRecord(processed[i], i, clock(i))
    {
      var msg := processed[idx];
      out := out + [UpstreamMessage(Get(msg.fields, "content", Str("")), Get(msg.fields, "role", Null), clock(idx) + idx)];
      idx := idx + 1;
    }
  }

  /** `_prepare_messages`: `null` stands for an argument that is not a list.
      The list is unwrapped in place even when a later check fails. */
  method PrepareMessages(messages: array?<Element>, clock: nat -> int)
    returns (r: Result<(Value, seq<UpstreamMessage>), PrepareError>)
    modifies messages
    ensures messages == null ==> r == Failure(EmptyOrNotList)
    ensures messages != null ==>
      forall i :: 0 <= i < messages.Length ==> messages[i] == UnwrapElement(old(messages[i]))
    ensures messages != null ==> r == Normalize(messages[..], clock)
  {
    if messages == null || messages.Length == 0 {
      return Failure(EmptyOrNotList);
    }
    UnwrapPluginMessages(messages);
    var err := CheckStructure(messages);
    ghost var unwrapped := messages[..];
    if err.Some? {
      assert Normalize(unwrapped, clock) == Failure(err.value);
      return Failure(err.value);
    }
    assert forall i :: 0 <= i < |unwrapped| ==> WellFormed(unwrapped[i]);
    var systemPrompt := Str("");
    var processed := messages[..];
    if IsSystem(messages[0]) {
      systemPrompt := messages[0].fields["content"];
      processed := messages[1..];
    }
    var chatMessages := ToUpstream(processed, clock);
    assert chatMessages == seq(|processed|, i requires 0 <= i < |processed| => ToRecord(processed[i], i, clock(i)));
    r := Success((systemPrompt, chatMessages));
  }
}
