/** The conversation history page (frontend/src/app/history/page.tsx): loading the list,
    delete-by-id with the `deletingId` marker, pluralisation and the title fallback. */
module HistoryPage {
  import opened Options
  import Text
  import Lists

  datatype Conversation = Conversation(id: string, title: Option<string>, messageCount: nat)

  const UntitledTitle := "Sans titre"
  const ConfirmText := "Voulez-vous vraiment supprimer cette conversation ? Cette action est irréversible."
  const Deleted := "Conversation supprimée avec succès"
  const DeleteFailed := "Erreur lors de la suppression. Veuillez réessayer."

  /** The suffix added to a counted noun: "s" exactly for counts above one. */
  function Plural(n: nat): (suffix: string)
    ensures suffix == "s" <==> n > 1
    ensures suffix == "" <==> n <= 1
  {
    if n > 1 then "s" else ""
  }

  /** The line above the list. */
  function CountLine(n: nat): string {
    Text.Decimal(n) + " conversation" + Plural(n) + " trouvée" + Plural(n)
  }

  /** The line under each title. */
  function MessageCountLine(n: nat): string {
    Text.Decimal(n) + " message" + Plural(n)
  }

  /** Counts of zero and one read in the singular. */
  lemma CountLineSingular(n: nat)
    requires n <= 1
    ensures CountLine(n) == Text.Decimal(n) + " conversation trouvée"
    ensures MessageCountLine(n) == Text.Decimal(n) + " message"
  {
    assert Plural(n) == "";
  }

  /** Counts above one read in the plural. */
  lemma CountLinePlural(n: nat)
    requires n > 1
    ensures CountLine(n) == Text.Decimal(n) + " conversations trouvées"
    ensures MessageCountLine(n) == Text.Decimal(n) + " messages"
  {
    assert Plural(n) == "s";
  }

  /** `conv.title || 'Sans titre'`. */
  function DisplayTitle(c: Conversation): (t: string)
    ensures t != ""
    ensures Truthy(c.title) ==> t == c.title.value
    ensures !Truthy(c.title) ==> t == UntitledTitle
  {
    OrElse(c.title, UntitledTitle)
  }

  function NotId(id: string): Conversation -> bool {
    (c: Conversation) => c.id != id
  }

  class ConversationList {
    var conversations: seq<Conversation>
    var isLoading: bool
    var deletingId: Option<string>
    var notifications: seq<string>
    /** Ids handed to `chatAPI.deleteConversation`, oldest first. */
    var deleteCalls: seq<string>

    constructor ()
      ensures conversations == [] && isLoading && deletingId == None
      ensures notifications == [] && deleteCalls == []
    {
      conversations := [];
      isLoading := true;
      deletingId := None;
      notifications := [];
      deleteCalls := [];
    }

    /** `loadConversations`; `answer` is `None` when the API call failed. */
    method LoadConversations(answer: Option<seq<Conversation>>)
      modifies this
      ensures conversations == if answer.Some? then answer.value else old(conversations)
      ensures !isLoading
      ensures deletingId == old(deletingId) && notifications == old(notifications) && deleteCalls == old(deleteCalls)
    {
      isLoading := true;
      if answer.Some? {
        conversations := answer.value;
      }
      isLoading := false;
    }

    /** `handleDelete`. `confirmed` is the viewer's answer to the dialog, whose text is
        returned with the value `deletingId` holds while the delete call is in flight. */
    method HandleDelete(id: string, confirmed: bool, deleted: bool) returns (prompt: string, duringCall: Option<string>)
      modifies this
      ensures prompt == ConfirmText
      ensures !confirmed ==> (duringCall == old(deletingId) && conversations == old(conversations)
        && deletingId == old(deletingId) && deleteCalls == old(deleteCalls) && notifications == old(notifications))
      ensures confirmed ==> duringCall == Some(id) && deletingId == None && deleteCalls == old(deleteCalls) + [id]
      ensures confirmed && deleted ==>
        (conversations == Lists.Filter(old(conversations), NotId(id)) && notifications == old(notifications) + [Deleted])
      ensures confirmed && !deleted ==>
        (conversations == old(conversations) && notifications == old(notifications) + [DeleteFailed])
      ensures isLoading == old(isLoading)
    {
      prompt := ConfirmText;
      if !confirmed {
        duringCall := deletingId;
        return;
      }
      deletingId := Some(id);
      duringCall := deletingId;
      deleteCalls := deleteCalls + [id];
      if deleted {
        conversations := Lists.Filter(conversations, NotId(id));
        notifications := notifications + [Deleted];
      } else {
        notifications := notifications + [DeleteFailed];
      }
      deletingId := None;
    }
  }

  /** A successful delete drops exactly the conversations with that id and keeps the rest in
      order; deleting an id that is not listed leaves the list as it was. */
  lemma DeleteKeepsOthersInOrder(convs: seq<Conversation>, id: string)
    ensures var after := Lists.Filter(convs, NotId(id));
      (forall i :: 0 <= i < |after| ==> after[i].id != id)
      && (forall i :: 0 <= i < |convs| && convs[i].id != id ==> convs[i] in after)
      && Lists.IsSubsequence(after, convs)
    ensures (forall i :: 0 <= i < |convs| ==> convs[i].id != id) ==> Lists.Filter(convs, NotId(id)) == convs
  {
    Lists.FilterIsSubsequence(convs, NotId(id));
    if forall i :: 0 <= i < |convs| ==> convs[i].id != id {
      Lists.FilterAll(convs, NotId(id));
    }
  }
}
