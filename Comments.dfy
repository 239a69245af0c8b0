// The comments screen: replying to a comment (with a notification to its author),
// showing a comment's replies, and editing or deleting a reply. One text box value,
// `replyText`, is shared by the reply box and the edit box.

module Comments {
  import opened Platform
  import opened Sequences
  import opened Text
  import opened AdminContext

  /** `replies.filter(r => r.commentId === commentId)`: the replies shown under a comment. */
  function RepliesOf(replies: seq<Reply>, commentId: string): (r: seq<Reply>)
    ensures forall x :: x in r <==> x in replies && x.commentId == commentId
  {
    Filter(replies, (x: Reply) => x.commentId == commentId)
  }

  /** Each reply of the comment is shown as often as it occurs in the list, and no other reply is shown. */
  lemma RepliesOfCounts(replies: seq<Reply>, commentId: string)
    ensures forall x :: multiset(RepliesOf(replies, commentId))[x] == if x.commentId == commentId then multiset(replies)[x] else 0
  {
    FilterMultiplicity(replies, (x: Reply) => x.commentId == commentId);
  }

  /** The replies under a comment keep the order of the reply list. */
  lemma RepliesOfKeepsOrder(replies: seq<Reply>, commentId: string)
    ensures IsSubsequence(RepliesOf(replies, commentId), replies)
  {
    FilterIsSubsequence(replies, (x: Reply) => x.commentId == commentId);
  }

  /** Every reply is shown under its own comment and under no other. */
  lemma RepliesShownOnce(replies: seq<Reply>, x: Reply, commentId: string)
    requires x in replies
    ensures x in RepliesOf(replies, x.commentId)
    ensures commentId != x.commentId ==> x !in RepliesOf(replies, commentId)
  {
  }

  /** The "Show Replies" / "Hide Replies" button of `comment`: it hides the replies when
    * they are shown for a comment with the same id, and shows this comment's otherwise. */
  function ToggleShown(shown: Option<Comment>, comment: Comment): (r: Option<Comment>)
    ensures r == None <==> shown.Some? && shown.value.id == comment.id
    ensures r.Some? ==> r == Some(comment)
  {
    if shown.Some? && shown.value.id == comment.id then None else Some(comment)
  }

  /** Pressing the button twice on a comment hides every reply list if another comment's
    * replies were shown, and otherwise restores what was shown. */
  lemma ToggleShownTwice(shown: Option<Comment>, comment: Comment)
    requires shown.Some? && shown.value.id == comment.id ==> shown.value == comment
    ensures ToggleShown(ToggleShown(shown, comment), comment) ==
      if shown.Some? && shown.value.id != comment.id then None else shown
  {
  }

  class CommentsView {
    const store: AdminStore
    var commentBeingReplied: Option<Comment>
    var commentWithRepliesShown: Option<Comment>
    var replyText: string
    /** The id of the reply whose edit box is open. */
    var selectedReply: Option<string>

    constructor (store: AdminStore)
      ensures this.store == store
      ensures commentBeingReplied == None && commentWithRepliesShown == None
      ensures replyText == "" && selectedReply == None
    {
      this.store := store;
      commentBeingReplied := None;
      commentWithRepliesShown := None;
      replyText := "";
      selectedReply := None;
    }

    /** The mount effect: with a token, the comments and then all replies are fetched. */
    method FetchData(commentsO: Outcome<seq<Comment>>, repliesO: Outcome<seq<Reply>>)
      modifies store, store.browser
      ensures store.aToken == "" ==> store.State() == old(store.State()) && store.Effects([], [])
      ensures store.aToken != "" ==>
        && store.State() == old(store.State()).(
             comments := if commentsO.Success? then commentsO.value else old(store.comments),
             replies := if repliesO.Success? then repliesO.value else old(store.replies))
        && store.Effects([AllComments, AllReplies],
             (match commentsO
              case Success(_) => []
              case Failure(_) => [EngineError]
              case Exception(m) => [Error(m)])
             + AllRepliesNotices(repliesO))
    {
      if store.aToken != "" {
        store.GetComments(commentsO);
        store.GetAllReplies(repliesO);
      }
    }

    /** The "Reply" button opens the reply box of that comment with an empty text. */
    method HandleReplyClick(comment: Comment)
      modifies this
      ensures commentBeingReplied == Some(comment) && replyText == ""
      ensures commentWithRepliesShown == old(commentWithRepliesShown) && selectedReply == old(selectedReply)
    {
      commentBeingReplied := Some(comment);
      replyText := "";
    }

    /** Typing in the reply box or in the edit box. */
    method TypeText(text: string)
      modifies this
      ensures replyText == text
      ensures commentBeingReplied == old(commentBeingReplied)
      ensures commentWithRepliesShown == old(commentWithRepliesShown) && selectedReply == old(selectedReply)
    {
      replyText := text;
    }

    /** The reply box's "Cancel" button closes it and keeps the text. */
    method CancelReply()
      modifies this
      ensures commentBeingReplied == None && replyText == old(replyText)
      ensures commentWithRepliesShown == old(commentWithRepliesShown) && selectedReply == old(selectedReply)
    {
      commentBeingReplied := None;
    }

    /** "Send Reply". Nothing happens without an open reply box or with a blank text. The
      * untrimmed text is posted; a rejected post ends the handler before the author is
      * notified. Otherwise the author is notified even when the reply settled with null,
      * and only a truthy reply refetches the replies and closes the box. */
    method SubmitReply(replyO: Outcome<()>, notifyO: Call<()>, repliesO: Outcome<seq<Reply>>)
      modifies this, store, store.browser
      ensures commentWithRepliesShown == old(commentWithRepliesShown) && selectedReply == old(selectedReply)
      ensures old(commentBeingReplied).None? || IsBlank(old(replyText)) ==>
        && commentBeingReplied == old(commentBeingReplied) && replyText == old(replyText)
        && store.State() == old(store.State()) && store.Effects([], [])
      ensures old(commentBeingReplied).Some? && !IsBlank(old(replyText)) ==>
        var c := old(commentBeingReplied).value;
        var text := old(replyText);
        var post := PostReply(c.id, text);
        var notify := CreateNotification(c.userId, ReplyNotificationText(c.productName, text));
        match replyO
        case Exception(m) =>
          && commentBeingReplied == old(commentBeingReplied) && replyText == text
          && store.State() == old(store.State()) && store.Effects([post], [Error(m)])
        case Failure(_) =>
          && commentBeingReplied == old(commentBeingReplied) && replyText == text
          && store.State() == old(store.State())
          && store.Effects([post, notify], [Error("Can't reply")] + ReplyNotifyNotices(notifyO))
        case Success(_) =>
          && commentBeingReplied == None && replyText == ""
          && store.State() == (if repliesO.Success? then old(store.State()).(replies := repliesO.value) else old(store.State()))
          && store.Effects([post, notify, AllReplies],
               [Info("Reply successfully")] + ReplyNotifyNotices(notifyO) + AllRepliesNotices(repliesO))
    {
      // `replyText.trim()` is empty exactly when the text is blank (see `Text.Trim`).
      if commentBeingReplied.Some? && !IsBlank(replyText) {
        var c := commentBeingReplied.value;
        var result := store.ReplyComment(c.id, replyText, replyO);
        if result.Rethrown? {
          return;
        }
        store.CreateReplyNotification(c.userId, replyText, c.productName, notifyO);
        if result.Response? {
          store.GetAllReplies(repliesO);
          replyText := "";
          commentBeingReplied := None;
        }
      }
    }

    /** The "Show Replies" / "Hide Replies" button of a comment. */
    method ToggleReplies(comment: Comment)
      modifies this
      ensures commentWithRepliesShown == ToggleShown(old(commentWithRepliesShown), comment)
      ensures commentBeingReplied == old(commentBeingReplied)
      ensures replyText == old(replyText) && selectedReply == old(selectedReply)
    {
      if commentWithRepliesShown.Some? && commentWithRepliesShown.value.id == comment.id {
        commentWithRepliesShown := None;
      } else {
        commentWithRepliesShown := Some(comment);
      }
    }

    /** A reply's "Edit" button opens its edit box holding the reply's text. */
    method StartEdit(reply: Reply)
      modifies this
      ensures selectedReply == Some(reply.id) && replyText == reply.text
      ensures commentBeingReplied == old(commentBeingReplied)
      ensures commentWithRepliesShown == old(commentWithRepliesShown)
    {
      selectedReply := Some(reply.id);
      replyText := reply.text;
    }

    /** The edit box's "Save" button. `editReply` always settles with undefined, so the
      * branch that would refetch the replies and close the edit box never runs: only
      * the update request and its toast happen. */
    method HandleEditReply(replyId: string, newText: string, o: Outcome<()>)
      modifies store.browser
      ensures store.Effects([UpdateReply(replyId, newText)],
        [match o
         case Success(_) => Info("Edit successfully")
         case Failure(_) => Error("Can't find data")
         case Exception(m) => Error(m)])
    {
      store.EditReply(replyId, newText, o);
    }

    /** A reply's "Delete" button. `deleteReply` always settles with undefined, so the
      * replies are not refetched and the deleted reply stays on screen. */
    method HandleDeleteReply(replyId: string, o: Outcome<()>)
      modifies store.browser
      ensures store.Effects([RemoveReply(replyId)],
        [match o
         case Success(_) => Info("Reply removed successfully")
         case Failure(_) => Error("Can't find data")
         case Exception(m) => Error(m)])
    {
      store.DeleteReply(replyId, o);
    }
  }
}
