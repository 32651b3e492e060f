/**
 * cleanChatHistory of server/src/controllers/aiChatController.js: keep each
 * message's role and, when `parts` is an array, a fresh `{ text }` for every
 * part whose `text` is a string. Reading a property of a nullish message or
 * part throws a TypeError, which the model returns as `None`.
 */
module AiChatController {
  import opened Wrappers
  import opened Js
  import opened Seqs

  /**
   * An element of `parts`. A non-null primitive reads as an object whose
   * `text` is `undefined`; only `null` and `undefined` make `part.text` throw.
   */
  datatype Part = NullishPart | PartObject(text: JsValue)

  /** The `parts` property: an array, or anything else (`Array.isArray` fails). */
  datatype PartsField = NotAnArray | PartArray(items: seq<Part>)

  datatype Message = NullishMessage | MessageObject(role: JsValue, parts: PartsField)

  datatype CleanPart = CleanPart(text: string)

  datatype CleanMessage = CleanMessage(role: JsValue, parts: seq<CleanPart>)

  /** The map/filter over one `parts` array; `None` when a part is nullish. */
  function CleanParts(items: seq<Part>): Option<seq<CleanPart>>
  {
    if items == [] then Some([])
    else match CleanParts(items[1..])
      case None => None
      case Some(rest) =>
        match items[0]
        case NullishPart => None
        case PartObject(Str(t)) => Some([CleanPart(t)] + rest)
        case PartObject(_) => Some(rest)
  }

  function CleanOne(m: Message): Option<CleanMessage>
  {
    match m
    case NullishMessage => None
    case MessageObject(role, NotAnArray) => Some(CleanMessage(role, []))
    case MessageObject(role, PartArray(items)) =>
      match CleanParts(items)
      case None => None
      case Some(ps) => Some(CleanMessage(role, ps))
  }

  /** cleanChatHistory. */
  function CleanChatHistory(history: seq<Message>): Option<seq<CleanMessage>>
  {
    if history == [] then Some([])
    else match (CleanOne(history[0]), CleanChatHistory(history[1..]))
      case (Some(c), Some(rest)) => Some([c] + rest)
      case _ => None
  }

  // ---------------------------------------------------------------------------
  // Reference definitions
  // ---------------------------------------------------------------------------

  predicate PartOk(p: Part) { p.PartObject? }

  predicate MessageOk(m: Message)
  {
    m.MessageObject? &&
    (m.parts.PartArray? ==> forall k :: 0 <= k < |m.parts.items| ==> PartOk(m.parts.items[k]))
  }

  /** The number of parts whose `text` is a string. */
  function StringPartCount(items: seq<Part>): nat
  {
    if items == [] then 0
    else (if items[0].PartObject? && items[0].text.Str? then 1 else 0) + StringPartCount(items[1..])
  }

  /** The texts of a clean part list. */
  function Texts(ps: seq<CleanPart>): (r: seq<string>)
    ensures |r| == |ps|
    ensures forall i :: 0 <= i < |ps| ==> r[i] == ps[i].text
  {
    if ps == [] then [] else [ps[0].text] + Texts(ps[1..])
  }

  /** The texts read from the raw parts, string or not. */
  function RawTexts(items: seq<Part>): (r: seq<JsValue>)
    requires forall k :: 0 <= k < |items| ==> PartOk(items[k])
    ensures |r| == |items|
  {
    if items == [] then []
    else
      assert PartOk(items[0]);
      [items[0].text] + RawTexts(items[1..])
  }

  function StrValues(ts: seq<string>): (r: seq<JsValue>)
    ensures |r| == |ts|
    ensures forall i :: 0 <= i < |ts| ==> r[i] == Str(ts[i])
  {
    if ts == [] then [] else [Str(ts[0])] + StrValues(ts[1..])
  }

  // ---------------------------------------------------------------------------
  // Properties
  // ---------------------------------------------------------------------------

  /**
   * The part filter throws exactly on a nullish part; otherwise it keeps one
   * clean part per string text, in order, a subsequence of the raw texts.
   */
  lemma {:induction false} CleanPartsSpec(items: seq<Part>)
    ensures CleanParts(items).Some? <==> forall k :: 0 <= k < |items| ==> PartOk(items[k])
    ensures CleanParts(items).Some? ==>
      && |CleanParts(items).value| == StringPartCount(items)
      && IsSubsequence(StrValues(Texts(CleanParts(items).value)), RawTexts(items))
  {
    if items != [] {
      CleanPartsSpec(items[1..]);
      assert forall k :: 1 <= k < |items| ==> items[1..][k - 1] == items[k];
      if CleanParts(items).Some? {
        var ps := CleanParts(items).value;
        var rest := CleanParts(items[1..]).value;
        assert RawTexts(items)[1..] == RawTexts(items[1..]);
        match items[0]
        case PartObject(Str(t)) =>
          assert ps == [CleanPart(t)] + rest;
          assert Texts(ps) == [t] + Texts(rest);
          assert StrValues(Texts(ps)) == [Str(t)] + StrValues(Texts(rest));
        case PartObject(v) =>
          assert ps == rest;
          SubsequenceSkip(StrValues(Texts(rest)), RawTexts(items[1..]), v);
          assert [v] + RawTexts(items[1..]) == RawTexts(items);
      }
    }
  }

  /**
   * cleanChatHistory throws exactly when a message, or a part of an array
   * `parts`, is nullish. Otherwise it keeps the length and the order, each
   * message keeps its role, and a message whose `parts` is not an array gets
   * no parts.
   */
  lemma {:induction false} CleanChatHistorySpec(history: seq<Message>)
    ensures CleanChatHistory(history).Some? <==>
      forall i :: 0 <= i < |history| ==> MessageOk(history[i])
    ensures CleanChatHistory(history).Some? ==>
      var out := CleanChatHistory(history).value;
      && |out| == |history|
      && forall i :: 0 <= i < |history| ==>
           && out[i].role == history[i].role
           && (history[i].parts.NotAnArray? ==> out[i].parts == [])
           && (history[i].parts.PartArray? ==> Some(out[i].parts) == CleanParts(history[i].parts.items))
  {
    if history != [] {
      CleanChatHistorySpec(history[1..]);
      assert forall i :: 1 <= i < |history| ==> history[1..][i - 1] == history[i];
      var m := history[0];
      if m.MessageObject? && m.parts.PartArray? {
        CleanPartsSpec(m.parts.items);
      }
      if CleanChatHistory(history).Some? {
        var out := CleanChatHistory(history).value;
        assert out[1..] == CleanChatHistory(history[1..]).value;
      }
    }
  }

  /** A message whose parts are all strings loses none of them, empty strings included. */
  lemma {:induction false} StringPartsAllKept(texts: seq<string>)
    ensures CleanParts(Lift(texts)) == Some(Wrap(texts))
  {
    if texts != [] {
      StringPartsAllKept(texts[1..]);
      assert Lift(texts)[1..] == Lift(texts[1..]);
    }
  }

  function Lift(texts: seq<string>): (r: seq<Part>)
    ensures |r| == |texts|
  {
    if texts == [] then [] else [PartObject(Str(texts[0]))] + Lift(texts[1..])
  }

  function Wrap(texts: seq<string>): (r: seq<CleanPart>)
  {
    if texts == [] then [] else [CleanPart(texts[0])] + Wrap(texts[1..])
  }

  /** A clean message seen again as raw input. */
  function AsMessage(c: CleanMessage): Message
  {
    MessageObject(c.role, PartArray(Lift(Texts(c.parts))))
  }

  function AsHistory(cs: seq<CleanMessage>): (r: seq<Message>)
    ensures |r| == |cs|
  {
    if cs == [] then [] else [AsMessage(cs[0])] + AsHistory(cs[1..])
  }

  lemma {:induction false} WrapTexts(ps: seq<CleanPart>)
    ensures Wrap(Texts(ps)) == ps
  {
    if ps != [] {
      WrapTexts(ps[1..]);
    }
  }

  lemma CleanOneOfClean(c: CleanMessage)
    ensures CleanOne(AsMessage(c)) == Some(c)
  {
    StringPartsAllKept(Texts(c.parts));
    WrapTexts(c.parts);
  }

  /** Cleaning is idempotent: a cleaned history, cleaned again, is unchanged. */
  lemma {:induction false} CleanIdempotent(cs: seq<CleanMessage>)
    ensures CleanChatHistory(AsHistory(cs)) == Some(cs)
  {
    if cs != [] {
      CleanIdempotent(cs[1..]);
      CleanOneOfClean(cs[0]);
      var h := AsHistory(cs);
      assert h[0] == AsMessage(cs[0]);
      assert h[1..] == AsHistory(cs[1..]);
      assert cs == [cs[0]] + cs[1..];
    }
  }
}
