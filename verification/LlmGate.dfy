/**
 The native-card gate's reply classifier (`agent/llm_gate.py`). Text cleaning and JSON parsing are outside: a
 reply arrives as what parsing made of it, and field validation is any function of the parsed object.
 */
module LlmGate {
  import opened Common

  datatype Json = Null | Bool(b: bool) | Number(n: real) | Text(s: string) | Other

  type Payload = map<string, Json>

  /** What the call gave: an exception, text that is not JSON, JSON that is not an object, or an object. */
  datatype Reply = Raised(errorType: string) | NotJson(errorType: string) | NotObject | Parsed(payload: Payload)

  /** A proposed price level: omitted, finite, or one of the non-finite floats. */
  datatype Level = Omitted | Finite(price: real) | NonFinite

  /** The validated fields the evaluator reads. */
  datatype Fields = Fields(thesis: string, stop: Level, target: Level)

  const NO_FIELDS := Fields("", Omitted, Omitted)

  datatype GateReply =
    | Approve(fields: Fields)
    | Veto(reason: string, fields: Fields, malformed: bool)
    | Error(errorType: string)

  const MALFORMED_VETO_REASON := "malformed veto"
  const VETO_WITHOUT_REASON := "veto without a reason"

  /** The characters `str.strip` removes. */
  predicate Space(c: char) {
    || 0x09 <= c as int <= 0x0D || 0x1C <= c as int <= 0x20 || 0x2000 <= c as int <= 0x200A
    || c as int in {0x85, 0xA0, 0x1680, 0x2028, 0x2029, 0x202F, 0x205F, 0x3000}
  }

  predicate Blank(s: string) {
    forall i :: 0 <= i < |s| ==> Space(s[i])
  }

  function VetoReason(payload: Payload, default: string): string {
    if "rejection_reason" in payload && payload["rejection_reason"].Text? && !Blank(payload["rejection_reason"].s)
    then payload["rejection_reason"].s else default
  }

  function MalformedVeto(payload: Payload): GateReply {
    var thesis := if "thesis_summary" in payload && payload["thesis_summary"].Text? then payload["thesis_summary"].s
      else "";
    Veto(VetoReason(payload, MALFORMED_VETO_REASON), NO_FIELDS.(thesis := thesis), true)
  }

  predicate RawApproval(payload: Payload, value: bool) {
    "approved" in payload && payload["approved"] == Bool(value)
  }

  /** `classify_gate_reply`; `read` is `GateReplyFields.model_validate`, absent on a validation error. */
  function Classify(reply: Reply, read: Payload -> Option<Fields>): GateReply {
    match reply
    case Raised(e) => Error(e)
    case NotJson(e) => Error(e)
    case NotObject => Error("TypeError")
    case Parsed(payload) =>
      var fields := read(payload);
      if fields.None? then if RawApproval(payload, true) then Error("ValidationError") else MalformedVeto(payload)
      else if RawApproval(payload, true) then Approve(fields.value)
      else if RawApproval(payload, false) then Veto(VetoReason(payload, VETO_WITHOUT_REASON), fields.value, false)
      else MalformedVeto(payload)
  }

  /**
   Whatever validation accepts: only a validated object whose raw `approved` is the JSON boolean true approves; an
   object without it is a veto with a nonblank reason, whose levels are read only when it is well formed; all else,
   an unvalidated true included, is an error.
   */
  lemma OnlyRawTrueApproves(reply: Reply, read: Payload -> Option<Fields>)
    ensures var g := Classify(reply, read);
            && (g.Approve? <==> reply.Parsed? && RawApproval(reply.payload, true) && read(reply.payload).Some?)
            && (g.Veto? <==> reply.Parsed? && !RawApproval(reply.payload, true))
            && (g.Veto? ==> !Blank(g.reason) && (g.malformed <==>
                 read(reply.payload).None? || !RawApproval(reply.payload, false)))
            && (g.Veto? && g.malformed ==> g.fields.stop.Omitted? && g.fields.target.Omitted?)
            && (g.Error? <==> !reply.Parsed? || (RawApproval(reply.payload, true) && read(reply.payload).None?))
  {
    assert MALFORMED_VETO_REASON[0] == 'm' && VETO_WITHOUT_REASON[0] == 'v';
  }

  /** The reply gives a reason: text that is not blank. */
  predicate GivesReason(payload: Payload) {
    && "rejection_reason" in payload && payload["rejection_reason"].Text?
    && exists i :: 0 <= i < |payload["rejection_reason"].s| && !Space(payload["rejection_reason"].s[i])
  }

  /**
   What each outcome carries: validated fields; a reason of the reply's own or the default of its form; a malformed
   veto's thesis alone; and an error by its type.
   */
  lemma RepliesKeep(reply: Reply, read: Payload -> Option<Fields>)
    ensures var g := Classify(reply, read);
            && (g.Approve? ==> read(reply.payload) == Some(g.fields))
            && (g.Veto? ==> g.reason == if GivesReason(reply.payload) then reply.payload["rejection_reason"].s
                                        else if g.malformed then "malformed veto" else "veto without a reason")
            && (g.Veto? && !g.malformed ==> read(reply.payload) == Some(g.fields))
            && (g.Veto? && g.malformed ==>
                  g.fields == Fields(if "thesis_summary" in reply.payload && reply.payload["thesis_summary"].Text?
                                     then reply.payload["thesis_summary"].s else "", Omitted, Omitted))
            && (g.Error? ==> g.errorType == if reply.Raised? || reply.NotJson? then reply.errorType
                                            else if reply.NotObject? then "TypeError" else "ValidationError")
  {
    OnlyRawTrueApproves(reply, read);
  }
}
