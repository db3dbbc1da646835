/**
 * Body selection in the mailbox listener: which text of a fetched message is
 * handed to `process_email_signal`. A message is abstracted to the sequence
 * of parts `msg.walk()` yields, or to the payload of a single-part message.
 */
module MailboxBody {
  import opened Outcomes
  import opened PyText
  import opened SignalExtraction
  import opened Database
  import opened TradeExecutor

  /** What `get_payload(decode=True).decode()` gives: the text, or an exception. */
  datatype Payload = Decoded(text: string) | Undecodable

  /** One part of a message: its content type, its Content-Disposition header (if any), its payload. */
  datatype Part = Part(contentType: string, disposition: Option<string>, payload: Payload)

  /** A fetched message: multipart with its parts in walk order, or a single payload. */
  datatype Message = Multipart(parts: seq<Part>) | SinglePart(payload: Payload)

  /** `str(part.get("Content-Disposition"))`: a missing header prints as "None". */
  function DispositionText(disposition: Option<string>): string {
    match disposition
    case Some(v) => v
    case None => "None"
  }

  /** The part is plain text and its Content-Disposition does not mention "attachment". */
  predicate IsInlineText(p: Part) {
    p.contentType == "text/plain" && !Contains(DispositionText(p.disposition), "attachment")
  }

  /** The part is taken as the body: inline plain text whose payload decodes. */
  predicate Acceptable(p: Part) {
    IsInlineText(p) && p.payload.Decoded?
  }

  /**
   * The body of a multipart message: the text of the first acceptable part in
   * walk order, or "" when there is none. A first acceptable part that decodes
   * to "" ends the search all the same.
   */
  function FirstPlainText(parts: seq<Part>): (body: string)
    ensures forall k :: 0 <= k < |parts| && Acceptable(parts[k]) && (forall i :: 0 <= i < k ==> !Acceptable(parts[i]))
              ==> body == parts[k].payload.text
    ensures (forall i :: 0 <= i < |parts| ==> !Acceptable(parts[i])) ==> body == ""
    decreases |parts|
  {
    if parts == [] then ""
    else if Acceptable(parts[0]) then parts[0].payload.text
    else
      var rest := FirstPlainText(parts[1..]);
      assert forall k :: 1 <= k < |parts| ==> parts[1..][k - 1] == parts[k];
      rest
  }

  /**
   * Lines 142-152 of `email_listener`: walk the parts, take the first inline
   * plain-text part that decodes and stop; a part whose decoding raises is
   * skipped by the bare `except`.
   */
  method SelectBody(parts: seq<Part>) returns (body: string)
    ensures body == FirstPlainText(parts)
  {
    body := "";
    var i := 0;
    while i < |parts|
      invariant 0 <= i <= |parts|
      invariant forall j :: 0 <= j < i ==> !Acceptable(parts[j])
    {
      var part := parts[i];
      if IsInlineText(part) {
        match part.payload
        case Decoded(text) =>
          body := text;
          return;
        case Undecodable =>
      }
      i := i + 1;
    }
  }

  /** The body the listener extracts, or None when decoding a single-part message raises. */
  function BodyText(msg: Message): Option<string> {
    match msg
    case Multipart(parts) => Some(FirstPlainText(parts))
    case SinglePart(Decoded(text)) => Some(text)
    case SinglePart(Undecodable) => None
  }

  /** What became of one fetched message. */
  datatype MessageOutcome =
    | ListenerError                       // the exception reached the listener loop, which backs off
    | EmptyBody                           // logged "Empty email body." and skipped
    | Processed(effects: seq<Effect>)     // handed to process_email_signal, with what that did

  /**
   * Lines 142-159 of `email_listener` for one fetched message: extract the
   * body and hand it to `process_email_signal` only when it is non-empty.
   */
  method HandleMessage(ledger: TradeLedger, msg: Message, loads: string -> JsonDoc, broker: Brokerage, now: real)
    returns (outcome: MessageOutcome)
    requires ledger.Valid()
    modifies ledger
    ensures ledger.Valid()
    ensures BodyText(msg) == None ==> outcome == ListenerError && ledger.State() == old(ledger.State())
    ensures BodyText(msg) == Some("") ==> outcome == EmptyBody && ledger.State() == old(ledger.State())
    ensures BodyText(msg).Some? && BodyText(msg).value != "" ==>
      && outcome == Processed(SignalEffects(BodyText(msg).value, loads, broker))
      && ledger.State() == Replay(old(ledger.State()), Stamped(Writes(outcome.effects), now))
  {
    var body := "";
    match msg {
      case Multipart(parts) =>
        body := SelectBody(parts);
      case SinglePart(payload) =>
        if payload.Undecodable? {
          return ListenerError;
        }
        body := payload.text;
    }
    if body != "" {
      var effects := ProcessEmailSignal(ledger, body, loads, broker, now);
      outcome := Processed(effects);
    } else {
      outcome := EmptyBody;
    }
  }

  /** A part that is not taken (an attachment, not plain text, or failing to decode) is skipped over. */
  lemma SkippedPartIgnored(p: Part, parts: seq<Part>)
    requires !Acceptable(p)
    ensures FirstPlainText([p] + parts) == FirstPlainText(parts)
  {
    assert ([p] + parts)[1..] == parts;
  }

  /**
   * The first acceptable part decides the body even when it is empty: a later
   * part with text is then never looked at, and the message is skipped as
   * having an empty body.
   */
  lemma EmptyFirstPartWins(p: Part, parts: seq<Part>)
    requires Acceptable(p) && p.payload.text == ""
    ensures FirstPlainText([p] + parts) == ""
    ensures BodyText(Multipart([p] + parts)) == Some("")
  {
  }
}
