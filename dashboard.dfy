/** The document list (app/dashboard/page.tsx): it loads the user's documents,
    deletes one after confirmation, and shows for each document a status
    badge, its size in B, KB or MB, and the actions its status allows. */
module Dashboard {
  import opened Js
  import opened Api
  import RouteGuard

  const DocumentsEndpoint: string := "/documents"
  const DeleteErrorPrefix: string := "Erro ao deletar: "

  datatype Status = Processing | Completed | Failed

  /** A document as the server lists it. */
  datatype Document = Document(
    id: string,
    originalName: string,
    status: Status,
    createdAt: string,
    fileSize: int,
    extractedText: Option<string>)

  /** The list after a delete: `docs.filter(doc => doc.id !== id)`. */
  function RemoveId(docs: seq<Document>, id: string): (r: seq<Document>)
    ensures forall d :: d in r <==> d in docs && d.id != id
    ensures |r| <= |docs|
    ensures (forall d :: d in docs ==> d.id != id) ==> r == docs
  {
    if docs == [] then []
    else
      var rest := RemoveId(docs[1..], id);
      assert forall d :: d in docs <==> d == docs[0] || d in docs[1..];
      if docs[0].id != id then [docs[0]] + rest else rest
  }

  /** The filter works element by element: it distributes over concatenation,
      so every kept document stays in its place relative to the others. */
  lemma {:induction false} RemoveIdDistributes(a: seq<Document>, b: seq<Document>, id: string)
    ensures RemoveId(a + b, id) == RemoveId(a, id) + RemoveId(b, id)
    decreases |a|
  {
    if a == [] {
      assert a + b == b;
    } else {
      assert (a + b)[1..] == a[1..] + b;
      RemoveIdDistributes(a[1..], b, id);
    }
  }

  /** On one document the filter keeps it exactly when its id differs. */
  lemma RemoveIdSingle(d: Document, id: string)
    ensures RemoveId([d], id) == if d.id != id then [d] else []
  {
  }

  /** Deleting twice with the same id is the same as deleting once. */
  lemma RemoveIdIdempotent(docs: seq<Document>, id: string)
    ensures RemoveId(RemoveId(docs, id), id) == RemoveId(docs, id)
  {
  }

  /** How many documents carry the id. */
  function CountId(docs: seq<Document>, id: string): nat
  {
    if docs == [] then 0 else (if docs[0].id == id then 1 else 0) + CountId(docs[1..], id)
  }

  /** The filter removes exactly the documents that carry the id. */
  lemma {:induction false} RemoveIdLength(docs: seq<Document>, id: string)
    ensures |RemoveId(docs, id)| + CountId(docs, id) == |docs|
    decreases |docs|
  {
    if docs != [] {
      RemoveIdLength(docs[1..], id);
    }
  }

  /** The unit a size is shown in. */
  datatype SizeUnit = B | KB | MB

  /** `formatFileSize(bytes)`: below 1024 the exact integer with " B";
      otherwise the size divided by `divisor`, printed with one decimal
      (not modelled), and the unit. */
  datatype SizeText = Exact(text: string) | Scaled(divisor: nat, unit: SizeUnit)

  function FormatFileSize(bytes: int): (s: SizeText)
    ensures s.Exact? <==> bytes < 1024
    ensures s.Exact? ==>
      && |s.text| > 2 && s.text[|s.text| - 2..] == " B"
      && CanonicalInt(s.text[..|s.text| - 2]) && ParseInt(s.text[..|s.text| - 2]) == Some(bytes)
    ensures s.Scaled? ==> (s.unit == KB <==> bytes < 1024 * 1024) && (s.unit == MB <==> bytes >= 1024 * 1024)
    ensures s.Scaled? ==> s.divisor == if s.unit == KB then 1024 else 1024 * 1024
  {
    if bytes < 1024 then
      var digits := IntText(bytes);
      IntTextRoundTrip(bytes);
      IntTextCanonical(bytes);
      assert (digits + " B")[..|digits|] == digits;
      Exact(digits + " B")
    else if bytes < 1024 * 1024 then Scaled(1024, KB)
    else Scaled(1024 * 1024, MB)
  }

  /** The tier boundaries belong to the higher tier. */
  lemma SizeTierBoundaries()
    ensures FormatFileSize(1023).Exact?
    ensures FormatFileSize(1024) == Scaled(1024, KB)
    ensures FormatFileSize(1048575) == Scaled(1024, KB)
    ensures FormatFileSize(1048576) == Scaled(1048576, MB)
  {
  }

  datatype Tone = Yellow | Green | Red

  /** What `getStatusBadge` shows: a colour and a caption. */
  datatype Badge = Badge(tone: Tone, caption: string)

  function StatusBadge(status: Status): (b: Badge)
    ensures status == Processing ==> b == Badge(Yellow, "Processando")
    ensures status == Completed ==> b == Badge(Green, "Concluído")
    ensures status == Failed ==> b == Badge(Red, "Falhou")
  {
    match status
    case Processing => Badge(Yellow, "Processando")
    case Completed => Badge(Green, "Concluído")
    case Failed => Badge(Red, "Falhou")
  }

  /** Distinct statuses get distinct badges, in colour and in caption. */
  lemma BadgesDistinguishStatuses(s1: Status, s2: Status)
    requires s1 != s2
    ensures StatusBadge(s1).tone != StatusBadge(s2).tone
    ensures StatusBadge(s1).caption != StatusBadge(s2).caption
  {
  }

  /** The actions shown beside a document. */
  datatype Action = ViewDetails(href: string) | Download | Delete(documentId: string)

  function AvailableActions(doc: Document): (actions: seq<Action>)
    ensures Delete(doc.id) in actions
    ensures ViewDetails(RouteGuard.DocumentPath(doc.id)) in actions <==> doc.status == Completed
    ensures Download in actions <==> doc.status == Completed
    ensures forall a :: a in actions ==> a == ViewDetails(RouteGuard.DocumentPath(doc.id)) || a == Download || a == Delete(doc.id)
  {
    if doc.status == Completed then [ViewDetails(RouteGuard.DocumentPath(doc.id)), Download, Delete(doc.id)]
    else [Delete(doc.id)]
  }

  /** The header line "N documento(s)": singular exactly for one document. */
  function CountLabel(count: nat): (text: string)
    ensures var digits := NatText(count);
      && |text| > |digits| + 1 && text[..|digits|] == digits && text[|digits|] == ' '
      && (text[|digits| + 1..] == "documento" <==> count == 1)
      && (text[|digits| + 1..] == "documentos" <==> count != 1)
  {
    NatText(count) + " " + if count == 1 then "documento" else "documentos"
  }

  /** The state of the page. */
  class DashboardPage {
    var documents: seq<Document>
    var isLoading: bool
    var error: Option<string>
    /** the messages shown with `alert`, oldest first */
    var alerts: seq<string>

    constructor ()
      ensures documents == [] && isLoading && error == None && alerts == []
    {
      documents := [];
      isLoading := true;
      error := None;
      alerts := [];
    }

    /** `loadDocuments()`, where the server answers with `fetched`. */
    method LoadDocuments(client: ApiClient, fetched: Fetched<seq<Document>>) returns (request: Request)
      modifies this, client
      ensures request.url == client.apiUrl + DocumentsEndpoint && request.httpMethod == None
      ensures !isLoading
      ensures ApiOutcome(fetched).Ok? ==> documents == ApiOutcome(fetched).value.payload && error == None
      ensures ApiOutcome(fetched).Err? ==>
        documents == old(documents) && error == Some(ApiOutcome(fetched).error.message)
      ensures alerts == old(alerts)
      ensures IsUnauthorized(fetched) && client.hasWindow ==>
        client.storage == old(client.storage) - {"token", "user"} && client.location == Some(RouteGuard.LoginPath)
      ensures !(IsUnauthorized(fetched) && client.hasWindow) ==>
        client.storage == old(client.storage) && client.location == old(client.location)
    {
      isLoading := true;
      error := None;
      var r;
      request, r := client.Api(DocumentsEndpoint, None, map[], fetched);
      match r {
        case Ok(json) =>
          documents := json.payload;
        case Err(failure) =>
          error := Some(failure.message);
      }
      isLoading := false;
    }

    /** `handleDelete(id)`, where `confirmed` is the user's answer to the
        confirmation and the server answers the DELETE with `fetched`.
        Returns the request sent, if one was. */
    method HandleDelete<D>(id: string, confirmed: bool, client: ApiClient, fetched: Fetched<D>) returns (sent: Option<Request>)
      modifies this, client
      ensures !confirmed ==> sent == None && unchanged(this) && unchanged(client)
      ensures confirmed ==>
        && sent.Some? && sent.value.url == client.apiUrl + DocumentsEndpoint + "/" + id
        && sent.value.httpMethod == Some("DELETE")
      ensures confirmed && ApiOutcome(fetched).Ok? ==>
        documents == RemoveId(old(documents), id) && alerts == old(alerts)
      ensures confirmed && ApiOutcome(fetched).Err? ==>
        documents == old(documents) && alerts == old(alerts) + [DeleteErrorPrefix + ApiOutcome(fetched).error.message]
      ensures isLoading == old(isLoading) && error == old(error)
      ensures confirmed && IsUnauthorized(fetched) && client.hasWindow ==>
        client.storage == old(client.storage) - {"token", "user"} && client.location == Some(RouteGuard.LoginPath)
      ensures confirmed && !(IsUnauthorized(fetched) && client.hasWindow) ==>
        client.storage == old(client.storage) && client.location == old(client.location)
    {
      sent := None;
      if !confirmed {
        return;
      }
      var request, r := client.Api(DocumentsEndpoint + "/" + id, Some("DELETE"), map[], fetched);
      sent := Some(request);
      match r
      case Ok(_) =>
        documents := RemoveId(documents, id);
      case Err(failure) =>
        alerts := alerts + [DeleteErrorPrefix + failure.message];
    }
  }
}
