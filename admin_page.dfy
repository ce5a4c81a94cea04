/** The admin console's document list (frontend/src/app/admin/page.tsx): loading the list,
    the PDF gate on upload, delete-by-id and the two figures derived from the list. The
    documents API is outside the model: each operation receives what it answered. */
module AdminPage {
  import opened Options
  import Text
  import Lists

  /** An indexed document as the backend lists it; `chunkCount` may be absent. */
  datatype Document = Document(id: string, filename: Option<string>, chunkCount: Option<nat>)

  datatype StatusKind = Success | Failure

  /** The banner under the upload button. */
  datatype UploadStatus = UploadStatus(message: string, kind: StatusKind)

  const PdfMime := "application/pdf"
  const OnlyPdf := "Seuls les fichiers PDF sont acceptés"
  const Uploaded := "Document uploadé et indexé avec succès !"
  const UploadFailed := "Erreur lors de l'upload"
  const Deleted := "Document supprimé avec succès"
  const DeleteFailed := "Erreur lors de la suppression. Veuillez réessayer."

  /** A file picked in the upload input: its name and its MIME type. */
  datatype PickedFile = PickedFile(name: string, mimeType: string)

  /** A call made through the documents API. */
  datatype DocumentsCall = GetDocuments | UploadDocument(file: PickedFile) | DeleteDocument(id: string)

  /** Position of the first document with that id, or the length of the list when there is none. */
  function FindIndex(docs: seq<Document>, id: string): (k: nat)
    ensures k <= |docs| && (k < |docs| ==> docs[k].id == id)
    ensures forall j :: 0 <= j < k ==> docs[j].id != id
  {
    if docs == [] || docs[0].id == id then 0 else 1 + FindIndex(docs[1..], id)
  }

  /** `documents.find(d => d.id === id)`: the first document with that id. */
  function Find(docs: seq<Document>, id: string): (r: Option<Document>)
    ensures r.None? <==> forall i :: 0 <= i < |docs| ==> docs[i].id != id
    ensures r.Some? ==> r.value.id == id && r.value in docs
    ensures r.Some? ==> r.value == docs[FindIndex(docs, id)]
  {
    var k := FindIndex(docs, id);
    if k < |docs| then Some(docs[k]) else None
  }

  /** The filter `handleDelete` applies to the list. */
  function NotId(id: string): Document -> bool {
    (d: Document) => d.id != id
  }

  function HasId(id: string): Document -> bool {
    (d: Document) => d.id == id
  }

  const Unnamed := "ce document"
  const PromptLead := "Êtes-vous sûr de vouloir supprimer le document "
  const PromptTail := " ? Cette action est irréversible."

  /** `doc?.filename || 'ce document'`: the name the confirmation dialog quotes, that of
      the first document with the id when it has a non-empty file name. */
  function DialogName(docs: seq<Document>, id: string): (name: string)
    ensures var k := FindIndex(docs, id);
      k < |docs| && Truthy(docs[k].filename) ==> name == docs[k].filename.value
    ensures var k := FindIndex(docs, id);
      !(k < |docs| && Truthy(docs[k].filename)) ==> name == Unnamed
    ensures name != ""
  {
    var d := Find(docs, id);
    if d.Some? then OrElse(d.value.filename, Unnamed) else Unnamed
  }

  /** The text of the confirmation dialog. */
  function DeletePrompt(docs: seq<Document>, id: string): (prompt: string)
    ensures |prompt| == |PromptLead| + |DialogName(docs, id)| + 2 + |PromptTail|
  {
    PromptLead + "\"" + DialogName(docs, id) + "\"" + PromptTail
  }

  /** The dialog quotes the document's name between double quotes. */
  lemma DeletePromptQuotesName(docs: seq<Document>, id: string)
    ensures Text.Contains(DeletePrompt(docs, id), "\"" + DialogName(docs, id) + "\"")
  {
    var prompt := DeletePrompt(docs, id);
    var quoted := "\"" + DialogName(docs, id) + "\"";
    assert prompt == PromptLead + quoted + PromptTail;
    assert prompt[|PromptLead|..|PromptLead| + |quoted|] == quoted;
    assert Text.OccursAt(prompt, quoted, |PromptLead|);
    Text.ContainsIff(prompt, quoted);
  }

  /** Two dialogs read the same exactly when they quote the same name. */
  lemma DeletePromptDeterminesName(docs: seq<Document>, id: string, docs': seq<Document>, id': string)
    ensures DeletePrompt(docs, id) == DeletePrompt(docs', id') <==> DialogName(docs, id) == DialogName(docs', id')
  {
    var n, n' := DialogName(docs, id), DialogName(docs', id');
    if DeletePrompt(docs, id) == DeletePrompt(docs', id') {
      var p := DeletePrompt(docs, id);
      var a := |PromptLead| + 1;
      assert |n| == |n'|;
      assert p[a..a + |n|] == n;
      assert DeletePrompt(docs', id')[a..a + |n'|] == n';
    }
  }

  /** Deleting an id that is not listed and deleting a document without a file name ask
      the same question. */
  lemma UnlistedAndUnnamedPromptAlike(docs: seq<Document>, id: string, docs': seq<Document>, id': string)
    requires forall i :: 0 <= i < |docs| ==> docs[i].id != id
    requires FindIndex(docs', id') < |docs'| && !Truthy(docs'[FindIndex(docs', id')].filename)
    ensures DeletePrompt(docs, id) == DeletePrompt(docs', id')
    ensures DialogName(docs, id) == Unnamed
  {
    assert FindIndex(docs, id) == |docs|;
  }

  /** `doc.chunk_count || 0`. */
  function Chunks(d: Document): nat {
    d.chunkCount.GetOr(0)
  }

  /** The "Vecteurs RAG" figure: the sum of the chunk counts, an absent one counting as 0. */
  function VectorCount(docs: seq<Document>): (n: nat)
    ensures docs == [] ==> n == 0
    ensures forall i :: 0 <= i < |docs| ==> Chunks(docs[i]) <= n
  {
    if docs == [] then 0 else Chunks(docs[0]) + VectorCount(docs[1..])
  }

  /** The two list-derived figures of the statistics cards, as displayed. */
  function IndexedStat(docs: seq<Document>): (s: string)
    ensures (forall i :: 0 <= i < |s| ==> Text.IsDigit(s[i])) && Text.ParseDecimal(s) == |docs|
  {
    Text.DecimalRoundTrip(|docs|);
    Text.Decimal(|docs|)
  }

  function VectorStat(docs: seq<Document>): (s: string)
    ensures (forall i :: 0 <= i < |s| ==> Text.IsDigit(s[i])) && Text.ParseDecimal(s) == VectorCount(docs)
  {
    Text.DecimalRoundTrip(VectorCount(docs));
    Text.Decimal(VectorCount(docs))
  }

  /** The sum over a concatenation is the sum of the sums. */
  lemma {:induction false} VectorCountAppend(a: seq<Document>, b: seq<Document>)
    ensures VectorCount(a + b) == VectorCount(a) + VectorCount(b)
  {
    if a == [] {
      assert a + b == b;
    } else {
      assert (a + b)[1..] == a[1..] + b;
      VectorCountAppend(a[1..], b);
    }
  }

  /** Deleting a document takes exactly the chunks of the documents with that id off the figure. */
  lemma {:induction false} VectorCountAfterDelete(docs: seq<Document>, id: string)
    ensures VectorCount(Lists.Filter(docs, NotId(id))) + VectorCount(Lists.Filter(docs, HasId(id)))
      == VectorCount(docs)
  {
    if docs != [] {
      var rest := docs[1..];
      VectorCountAfterDelete(rest, id);
      var keep := Lists.Filter(rest, NotId(id));
      var drop := Lists.Filter(rest, HasId(id));
      assert VectorCount(docs) == Chunks(docs[0]) + VectorCount(rest);
      if docs[0].id != id {
        assert Lists.Filter(docs, NotId(id)) == [docs[0]] + keep;
        assert Lists.Filter(docs, HasId(id)) == drop;
        VectorCountAppend([docs[0]], keep);
      } else {
        assert Lists.Filter(docs, NotId(id)) == keep;
        assert Lists.Filter(docs, HasId(id)) == [docs[0]] + drop;
        VectorCountAppend([docs[0]], drop);
      }
    }
  }

  class DocumentList {
    var documents: seq<Document>
    var isLoadingDocs: bool
    var isUploading: bool
    var uploadStatus: Option<UploadStatus>
    /** Texts of the transient notifications appended to the page, oldest first. */
    var notifications: seq<string>
    /** Every call made through the documents API, oldest first. */
    var calls: seq<DocumentsCall>

    constructor ()
      ensures documents == [] && !isLoadingDocs && !isUploading && uploadStatus == None
      ensures notifications == [] && calls == []
    {
      documents := [];
      isLoadingDocs := false;
      isUploading := false;
      uploadStatus := None;
      notifications := [];
      calls := [];
    }

    /** `fetchDocuments`; `answer` is the list the API returned, `None` when it failed. */
    method FetchDocuments(answer: Option<seq<Document>>)
      modifies this
      ensures documents == if answer.Some? then answer.value else old(documents)
      ensures !isLoadingDocs && calls == old(calls) + [GetDocuments]
      ensures isUploading == old(isUploading) && uploadStatus == old(uploadStatus)
      ensures notifications == old(notifications)
    {
      isLoadingDocs := true;
      calls := calls + [GetDocuments];
      if answer.Some? {
        documents := answer.value;
      }
      isLoadingDocs := false;
    }

    /** `handleFileUpload`. `files` is the input's selection (empty when none); `uploaded` says
        whether the upload call succeeded, and `refreshed` is what the list refresh that follows
        a successful upload answers. */
    method HandleFileUpload(files: seq<PickedFile>, uploaded: bool, refreshed: Option<seq<Document>>)
      modifies this
      ensures files == [] ==> (documents == old(documents) && isUploading == old(isUploading)
        && uploadStatus == old(uploadStatus) && calls == old(calls) && isLoadingDocs == old(isLoadingDocs))
      ensures files != [] && files[0].mimeType != PdfMime ==>
        uploadStatus == Some(UploadStatus(OnlyPdf, Failure)) && calls == old(calls)
        && documents == old(documents) && isUploading == old(isUploading) && isLoadingDocs == old(isLoadingDocs)
      ensures files != [] && files[0].mimeType == PdfMime ==>
        !isUploading && isLoadingDocs == (if uploaded then false else old(isLoadingDocs))
      ensures files != [] && files[0].mimeType == PdfMime && uploaded ==>
        uploadStatus == Some(UploadStatus(Uploaded, Success))
        && calls == old(calls) + [UploadDocument(files[0]), GetDocuments]
        && documents == (if refreshed.Some? then refreshed.value else old(documents))
      ensures files != [] && files[0].mimeType == PdfMime && !uploaded ==>
        uploadStatus == Some(UploadStatus(UploadFailed, Failure))
        && calls == old(calls) + [UploadDocument(files[0])] && documents == old(documents)
      ensures notifications == old(notifications)
    {
      if files == [] {
        return;
      }
      var file := files[0];
      if file.mimeType != PdfMime {
        uploadStatus := Some(UploadStatus(OnlyPdf, Failure));
        return;
      }
      isUploading := true;
      uploadStatus := None;
      calls := calls + [UploadDocument(file)];
      if uploaded {
        uploadStatus := Some(UploadStatus(Uploaded, Success));
        FetchDocuments(refreshed);
      } else {
        uploadStatus := Some(UploadStatus(UploadFailed, Failure));
      }
      isUploading := false;
    }

    /** `handleDelete`. `confirmed` is the viewer's answer to the dialog, whose text is
        returned; `deleted` says whether the delete call succeeded. */
    method HandleDelete(id: string, confirmed: bool, deleted: bool) returns (prompt: string)
      modifies this
      ensures prompt == DeletePrompt(old(documents), id)
      ensures !confirmed ==> documents == old(documents) && calls == old(calls) && notifications == old(notifications)
      ensures confirmed ==> calls == old(calls) + [DeleteDocument(id)]
      ensures confirmed && deleted ==>
        (documents == Lists.Filter(old(documents), NotId(id)) && notifications == old(notifications) + [Deleted])
      ensures confirmed && !deleted ==> documents == old(documents) && notifications == old(notifications) + [DeleteFailed]
      ensures isLoadingDocs == old(isLoadingDocs) && isUploading == old(isUploading) && uploadStatus == old(uploadStatus)
    {
      prompt := DeletePrompt(documents, id);
      if !confirmed {
        return;
      }
      calls := calls + [DeleteDocument(id)];
      if deleted {
        documents := Lists.Filter(documents, NotId(id));
        notifications := notifications + [Deleted];
      } else {
        notifications := notifications + [DeleteFailed];
      }
    }
  }

  /** After a successful delete no document with that id is left, every other document is
      kept, and the survivors keep their order. */
  lemma DeleteRemovesExactlyThatId(docs: seq<Document>, id: string)
    ensures var after := Lists.Filter(docs, NotId(id));
      (forall i :: 0 <= i < |after| ==> after[i].id != id)
      && (forall i :: 0 <= i < |docs| && docs[i].id != id ==> docs[i] in after)
      && Lists.IsSubsequence(after, docs)
  {
    Lists.FilterIsSubsequence(docs, NotId(id));
  }
}
