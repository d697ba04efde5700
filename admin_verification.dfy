/**
 * The document verification queue (components/AdminVerification.tsx).
 *
 * The component keeps a list of documents and a single `analyzingId` busy
 * marker. An AI scan marks the document busy, awaits the verdict service and
 * folds the verdict into the document; a manual action overrides the status.
 * Both updates map over the list by id. The component stores statuses as raw
 * strings and gates its buttons by comparing and searching those strings; here
 * the five strings it can produce form a closed datatype, and the string tests
 * are proved equal to plain tests on that datatype.
 */
module AdminVerification {
  import opened Wrappers
  import opened Strings
  import Lists
  import opened GeminiService

  /** The five statuses a document can have; `Text` is the string the component stores. */
  datatype DocStatus = Pending | AIApproved | AIFlagged | Approved | Rejected
  {
    function Text(): string
    {
      match this
      case Pending => "Pending"
      case AIApproved => "AI Approved"
      case AIFlagged => "AI Flagged"
      case Approved => "Approved"
      case Rejected => "Rejected"
    }
  }

  /** A queued document; `aiReason` is absent when a parsed reply carried no `reason`. */
  datatype Doc = Doc(
    id: string,
    user: string,
    docType: string,
    name: string,
    status: DocStatus,
    aiReason: Option<string>)

  /** The queue the component starts with. */
  const InitialDocs: seq<Doc> := [
    Doc("doc1", "Copper Ridge", "Mining License", "license_scan_2024.pdf", Pending, Some("")),
    Doc("doc2", "Global Tech", "Proof of Funds", "bcl_bank_letter.pdf", Pending, Some(""))
  ]

  // The two simulated extraction results the scan passes to the verdict service.
  const ValidLicenseContext: string :=
    "This document confirms the mining rights for Copper Ridge in region Katanga. Valid until 2025."
  const MismatchContext: string :=
    "Bank Comfort Letter. Expiry date mismatch detected in metadata. Account holder mismatch."

  /** The simulated document content: a name containing "bcl" stands for a suspicious letter. */
  function MockContent(name: string): string
  {
    if Includes(name, "bcl") then MismatchContext else ValidLicenseContext
  }

  /** The "mismatch" context is chosen exactly when "bcl" occurs in the name; otherwise the valid-license one. */
  lemma MockContentChoice(name: string)
    ensures MockContent(name) == MismatchContext <==> exists i :: OccursAt(name, "bcl", i)
    ensures MockContent(name) == ValidLicenseContext <==> !exists i :: OccursAt(name, "bcl", i)
  {
    IncludesIff(name, "bcl");
  }

  /** The first fixture document gets the valid-license context. */
  lemma LicenseGetsValidContext()
    ensures InitialDocs[0].name == "license_scan_2024.pdf"
    ensures MockContent("license_scan_2024.pdf") == ValidLicenseContext
  {
    MissingHeadNotIncluded("license_scan_2024.pdf", "bcl");
  }

  /** The second fixture document gets the mismatch context. */
  lemma LetterGetsMismatchContext()
    ensures InitialDocs[1].name == "bcl_bank_letter.pdf"
    ensures MockContent("bcl_bank_letter.pdf") == MismatchContext
  {
  }

  /** A reviewer's manual decision. */
  datatype Decision = Approve | Reject
  {
    /** The action string handed to the handler. */
    function Text(): string
    {
      match this
      case Approve => "Approved"
      case Reject => "Rejected"
    }

    /** The status the action string stands for. */
    function Status(): DocStatus
    {
      match this
      case Approve => Approved
      case Reject => Rejected
    }
  }

  /** How the awaited analysis ended: with a reply, or by throwing (the `catch` of `handleAIAnalysis`). */
  datatype Completion = Resolved(reply: Reply) | Threw

  /** The status a scan records: only a literal "Approved" reply counts as approval. */
  function ScanStatus(reply: Reply): DocStatus
  {
    if reply.status == Some("Approved") then AIApproved else AIFlagged
  }

  /** A document after its scan completed with `reply`. */
  function ScanVerdict(d: Doc, reply: Reply): Doc
  {
    d.(status := ScanStatus(reply), aiReason := reply.reason)
  }

  /** A document after a manual decision. */
  function ManualVerdict(d: Doc, a: Decision): Doc
  {
    d.(status := a.Status(), aiReason := Some("Manually " + a.Text()))
  }

  /** `docs.map(d => d.id === id ? f(d) : d)`. */
  function MapWhere(docs: seq<Doc>, id: string, f: Doc -> Doc): (r: seq<Doc>)
    ensures |r| == |docs|
    ensures forall i :: 0 <= i < |docs| && docs[i].id == id ==> r[i] == f(docs[i])
    ensures forall i :: 0 <= i < |docs| && docs[i].id != id ==> r[i] == docs[i]
  {
    if docs == [] then []
    else [if docs[0].id == id then f(docs[0]) else docs[0]] + MapWhere(docs[1..], id, f)
  }

  /** The list after a scan of `id` completed with `reply`. */
  function ApplyScan(docs: seq<Doc>, id: string, reply: Reply): seq<Doc>
  {
    MapWhere(docs, id, d => ScanVerdict(d, reply))
  }

  /** The list after a manual decision on `id`. */
  function ApplyManual(docs: seq<Doc>, id: string, a: Decision): seq<Doc>
  {
    MapWhere(docs, id, d => ManualVerdict(d, a))
  }

  /**
   * A completed scan keeps the length and order of the list and every other
   * document; the scanned document keeps its identity and gets "AI Approved"
   * exactly when the reply's status is "Approved" (anything else, absent or
   * unrecognised, gives "AI Flagged") and the reply's reason.
   */
  lemma ScanEffect(docs: seq<Doc>, id: string, reply: Reply)
    ensures var r := ApplyScan(docs, id, reply);
            && |r| == |docs|
            && (forall i :: 0 <= i < |docs| ==>
                  r[i].id == docs[i].id && r[i].name == docs[i].name &&
                  r[i].docType == docs[i].docType && r[i].user == docs[i].user)
            && (forall i :: 0 <= i < |docs| && docs[i].id != id ==> r[i] == docs[i])
            && (forall i :: 0 <= i < |docs| && docs[i].id == id ==>
                  (r[i].status == AIApproved <==> reply.status == Some("Approved")) &&
                  (r[i].status != AIApproved ==> r[i].status == AIFlagged) &&
                  r[i].aiReason == reply.reason)
  {
  }

  /**
   * A manual decision keeps the length and order of the list and every other
   * document; the decided document keeps its id, uploader, type and name and
   * gets the action as its status and "Manually " + the action as its reason.
   */
  lemma ManualEffect(docs: seq<Doc>, id: string, a: Decision)
    ensures var r := ApplyManual(docs, id, a);
            && |r| == |docs|
            && (forall i :: 0 <= i < |docs| ==> r[i].id == docs[i].id && r[i].name == docs[i].name)
            && (forall i :: 0 <= i < |docs| && docs[i].id != id ==> r[i] == docs[i])
            && (forall i :: 0 <= i < |docs| && docs[i].id == id ==>
                  r[i] == docs[i].(status := a.Status(), aiReason := Some("Manually " + a.Text())) &&
                  r[i].status.Text() == a.Text())
  {
  }

  /**
   * End to end: a scan records "AI Approved" exactly when the service
   * delivered a reply whose status is literally "Approved". No failure of the
   * service can approve a document.
   */
  lemma AIApprovalNeedsApprovedReply(name: string, docType: string, t: Transport)
    ensures ScanStatus(AnalyzeDocumentForFraud(name, docType, MockContent(name), t)) == AIApproved
            <==> Delivered(t) && t.parse.value.status == Some("Approved")
  {
    ApprovedOnlyFromModel(name, docType, MockContent(name), t);
  }

  /** A failed analysis flags the document with the fallback reason. */
  lemma FailedAnalysisFlags(d: Doc, t: Transport)
    requires !Delivered(t)
    ensures ScanVerdict(d, AnalyzeDocumentForFraud(d.name, d.docType, MockContent(d.name), t))
            == d.(status := AIFlagged, aiReason := Some(FallbackReason))
  {
    FailuresFallBackClosed(d.name, d.docType, MockContent(d.name), t);
  }

  // ----- Gating of the buttons and the status panel, on the raw status string -----

  /** The AI Scan button is shown (`doc.status === 'Pending'`). */
  predicate ScanOffered(status: string)
  {
    status == "Pending"
  }

  /** The AI Scan button is disabled (`analyzingId === doc.id`). */
  predicate ScanDisabled(analyzingId: Option<string>, id: string)
  {
    analyzingId == Some(id)
  }

  /** The AI Scan button can be clicked. */
  predicate ScanClickable(d: Doc, analyzingId: Option<string>)
  {
    ScanOffered(d.status.Text()) && !ScanDisabled(analyzingId, d.id)
  }

  /** The Approve and Reject buttons are shown. */
  predicate DecisionOffered(status: string)
  {
    Includes(status, "AI") && status != "Approved" && status != "Rejected"
  }

  /** The AI Scan button is shown exactly for pending documents. */
  lemma ScanOfferedIffPending(s: DocStatus)
    ensures ScanOffered(s.Text()) <==> s == Pending
  {
  }

  /** The substring test that shows Approve and Reject holds exactly for the two AI verdicts. */
  lemma DecisionOfferedIffAIVerdict(s: DocStatus)
    ensures DecisionOffered(s.Text()) <==> s == AIApproved || s == AIFlagged
  {
    match s
    case AIApproved => IncludesAt("AI Approved", "AI", 0);
    case AIFlagged => IncludesAt("AI Flagged", "AI", 0);
    case Pending => MissingHeadNotIncluded("Pending", "AI");
    case Approved => ApprovedLacksAI();
    case Rejected => MissingHeadNotIncluded("Rejected", "AI");
  }

  /** "Approved" starts with 'A' but does not contain "AI". */
  lemma ApprovedLacksAI()
    ensures !Includes("Approved", "AI")
  {
    assert "Approved"[..2][1] != "AI"[1];
    assert "Approved"[1..] == "pproved";
    MissingHeadNotIncluded("pproved", "AI");
  }

  /** A decided document offers no action at all: "Approved" and "Rejected" are final in the UI. */
  lemma DecidedOffersNothing(analyzingId: Option<string>, d: Doc)
    requires d.status == Approved || d.status == Rejected
    ensures !ScanClickable(d, analyzingId) && !DecisionOffered(d.status.Text())
  {
    DecisionOfferedIffAIVerdict(d.status);
  }

  /** The colour of the status panel. */
  datatype Tone = Green | Red | Plain

  function StatusTone(status: string): Tone
  {
    if Includes(status, "Approved") then Green
    else if Includes(status, "Flagged") || status == "Rejected" then Red
    else Plain
  }

  /** The status panel is shown (`doc.status !== 'Pending'`). */
  predicate StatusPanelShown(status: string)
  {
    status != "Pending"
  }

  /** Both approvals are shown green and both flags red; a pending document shows no panel. */
  lemma ToneOfStatus(s: DocStatus)
    ensures StatusPanelShown(s.Text()) <==> s != Pending
    ensures StatusTone(s.Text()) == Green <==> s == AIApproved || s == Approved
    ensures StatusTone(s.Text()) == Red <==> s == AIFlagged || s == Rejected
  {
    match s
    case Pending => PendingTone();
    case AIApproved => AIApprovedTone();
    case AIFlagged => AIFlaggedTone();
    case Approved => ApprovedTone();
    case Rejected => RejectedTone();
  }

  lemma ApprovedTone()
    ensures StatusTone("Approved") == Green
  {
    IncludesAt("Approved", "Approved", 0);
  }

  lemma PendingTone()
    ensures StatusTone("Pending") == Plain
  {
    MissingHeadNotIncluded("Pending", "Approved");
    MissingHeadNotIncluded("Pending", "Flagged");
  }

  lemma AIApprovedTone()
    ensures StatusTone("AI Approved") == Green
  {
    IncludesAt("AI Approved", "Approved", 3);
  }

  lemma AIFlaggedTone()
    ensures StatusTone("AI Flagged") == Red
  {
    NotIncludedAIFlagged();
    IncludesAt("AI Flagged", "Flagged", 3);
  }

  lemma RejectedTone()
    ensures StatusTone("Rejected") == Red
  {
    MissingHeadNotIncluded("Rejected", "Approved");
  }

  /** "AI Flagged" does not contain "Approved". */
  lemma NotIncludedAIFlagged()
    ensures !Includes("AI Flagged", "Approved")
  {
    var t := "AI Flagged";
    assert t[..8][1] != "Approved"[1];
    assert t[1..][..8][0] != "Approved"[0];
    assert t[2..][..8][0] != "Approved"[0];
    ShorterNotIncluded(t[3..], "Approved");
  }

  // ----- The pending badge -----

  /** The filter behind the pending badge. */
  predicate IsPending(d: Doc)
  {
    d.status.Text() == "Pending"
  }

  /** The badge count `docs.filter(d => d.status === 'Pending').length`. */
  function PendingCount(docs: seq<Doc>): (n: nat)
    ensures n == |set i | 0 <= i < |docs| && docs[i].status == Pending|
  {
    Lists.FilterLengthIsCount(docs, IsPending);
    assert Lists.IndicesWhere(docs, IsPending) == set i | 0 <= i < |docs| && docs[i].status == Pending;
    |Lists.Filter(docs, IsPending)|
  }

  /** No transition leads back to "Pending", so a pending document still has its initial empty reason. */
  ghost predicate PendingKeepsEmptyReason(docs: seq<Doc>)
  {
    forall i :: 0 <= i < |docs| && docs[i].status == Pending ==> docs[i].aiReason == Some("")
  }

  lemma TransitionsKeepPendingReason(docs: seq<Doc>, id: string, reply: Reply, a: Decision)
    requires PendingKeepsEmptyReason(docs)
    ensures PendingKeepsEmptyReason(ApplyScan(docs, id, reply))
    ensures PendingKeepsEmptyReason(ApplyManual(docs, id, a))
  {
  }

  /**
   * The converse fails: a scan whose reply has an empty reason leaves a
   * decided document with an empty reason, so "reason empty iff pending" is
   * not an invariant of the component.
   */
  lemma EmptyReasonAfterScan()
    ensures var r := ApplyScan(InitialDocs, "doc1", Reply(Some("Approved"), Some("")));
            r[0].status == AIApproved && r[0].aiReason == Some("")
  {
  }

  /** The component's state: the document list and the busy marker. */
  class VerificationQueue {
    var docs: seq<Doc>
    var analyzingId: Option<string>

    constructor ()
      ensures docs == InitialDocs && analyzingId == None
    {
      docs := InitialDocs;
      analyzingId := None;
    }

    /** The start of `handleAIAnalysis`: mark `id` busy and choose the mock content. */
    method StartScan(id: string, name: string) returns (context: string)
      modifies this
      ensures analyzingId == Some(id) && docs == old(docs)
      ensures context == MockContent(name)
    {
      analyzingId := Some(id);
      context := MockContent(name);
    }

    /**
     * The end of `handleAIAnalysis`: on a reply the list is
     * updated by id, on an exception it is left alone; in both cases the
     * `finally` clears the busy marker, whichever id it holds by then.
     */
    method CompleteScan(id: string, outcome: Completion)
      modifies this
      ensures analyzingId == None
      ensures docs == match outcome
                      case Resolved(reply) => ApplyScan(old(docs), id, reply)
                      case Threw => old(docs)
    {
      match outcome {
        case Resolved(reply) => docs := ApplyScan(docs, id, reply);
        case Threw =>
      }
      analyzingId := None;
    }

    /**
     * `handleAIAnalysis` when nothing else happens during the await. The
     * service never throws, so the `catch` branch is not taken.
     */
    method HandleAIAnalysis(id: string, name: string, docType: string, t: Transport)
      modifies this
      ensures analyzingId == None
      ensures docs == ApplyScan(old(docs), id, AnalyzeDocumentForFraud(name, docType, MockContent(name), t))
    {
      var context := StartScan(id, name);
      var reply := AnalyzeDocumentForFraud(name, docType, context, t);
      CompleteScan(id, Resolved(reply));
    }

    /** `handleManualAction`. */
    method HandleManualAction(id: string, action: Decision)
      modifies this
      ensures docs == ApplyManual(old(docs), id, action) && analyzingId == old(analyzingId)
    {
      docs := ApplyManual(docs, id, action);
    }
  }

  // ----- Concrete runs of the queue -----

  /** Scanning doc1 with a delivered "Approved" reply. */
  method ScanLicenseApproved() returns (d: Doc, others: Doc)
    ensures d.id == "doc1" && d.status == AIApproved && d.aiReason == Some("Dates consistent")
    ensures others == InitialDocs[1]
  {
    var q := new VerificationQueue();
    var reply := Reply(Some("Approved"), Some("Dates consistent"));
    var t := Responded(Some("{...}"), Parsed(reply));
    DeliveredReplyIsVerbatim("license_scan_2024.pdf", "Mining License", MockContent("license_scan_2024.pdf"), t);
    q.HandleAIAnalysis("doc1", "license_scan_2024.pdf", "Mining License", t);
    d, others := q.docs[0], q.docs[1];
  }

  /** Scanning doc2 with a "Flagged" reply, then rejecting it by hand. */
  method ScanLetterThenReject() returns (flagged: Doc, rejected: Doc)
    ensures flagged.id == "doc2" && flagged.status == AIFlagged && flagged.aiReason == Some("Account holder mismatch")
    ensures rejected.id == "doc2" && rejected.status == Rejected && rejected.aiReason == Some("Manually Rejected")
  {
    var q := new VerificationQueue();
    var reply := Reply(Some("Flagged"), Some("Account holder mismatch"));
    FlaggedReplyScan(q.docs, reply);
    q.CompleteScan("doc2", Resolved(reply));
    flagged := q.docs[1];
    q.HandleManualAction("doc2", Reject);
    rejected := q.docs[1];
    assert rejected == ManualVerdict(flagged, Reject);
    assert "Manually " + "Rejected" == "Manually Rejected";
  }

  /** A "Flagged" reply for doc2 flags only the second fixture document. */
  lemma FlaggedReplyScan(docs: seq<Doc>, reply: Reply)
    requires docs == InitialDocs && reply.status == Some("Flagged")
    ensures var r := ApplyScan(docs, "doc2", reply);
            |r| == 2 && r[1] == docs[1].(status := AIFlagged, aiReason := reply.reason)
  {
    assert docs[1].id == "doc2";
    assert docs[0].id != "doc2" by { assert docs[0].id[3] != "doc2"[3]; }
    assert reply.status != Some("Approved") by { assert reply.status.value[0] != "Approved"[0]; }
  }

  /** A network failure during the scan of doc1 flags it with the fallback reason. */
  method ScanWithNetworkError(name: string, docType: string) returns (d: Doc)
    ensures d.id == "doc1" && d.status == AIFlagged && d.aiReason == Some(FallbackReason)
  {
    var q := new VerificationQueue();
    q.HandleAIAnalysis("doc1", name, docType, CallFailed);
    d := q.docs[0];
  }

  /**
   * The busy marker holds one id. Starting a scan of doc2 while doc1's is in
   * flight makes doc1's AI Scan button clickable again, and when doc1's scan
   * completes the marker is cleared although doc2's is still in flight,
   * whatever names the two scans are started with.
   */
  method OverlappingScans(name1: string, name2: string) returns (doc1Clickable: bool, markerWhileDoc2Runs: Option<string>)
    ensures doc1Clickable
    ensures markerWhileDoc2Runs == None
  {
    var q := new VerificationQueue();
    var c1 := q.StartScan("doc1", name1);
    var c2 := q.StartScan("doc2", name2);
    doc1Clickable := ScanClickable(q.docs[0], q.analyzingId);
    q.CompleteScan("doc1", Resolved(Reply(Some("Approved"), Some("Dates consistent"))));
    markerWhileDoc2Runs := q.analyzingId;
  }
}
