// src/components/MessageInput.tsx: the draft text and attachment list of the
// message composer, the send button's gate, and the submit handler.

module Composer {
  import opened Types
  import opened Text
  import opened Lists
  import opened Discord

  /** Files above 8 MiB are dropped when selected. */
  const MaxAttachmentSize: nat := 8 * 1024 * 1024
  /** At most this many files stay attached. */
  const MaxAttachments: nat := 10

  /** The size filter of handleFileSelect: the files of at most
      MaxAttachmentSize bytes, in their order. */
  function AcceptedFiles(files: seq<File>): (r: seq<File>)
    ensures |r| <= |files|
    ensures forall f :: f in r <==> f in files && f.size <= MaxAttachmentSize
  {
    if files == [] then []
    else
      var rest := AcceptedFiles(files[1..]);
      assert forall f :: f in files <==> f == files[0] || f in files[1..];
      if files[0].size <= MaxAttachmentSize then [files[0]] + rest else rest
  }

  /** Filtering a concatenation filters each part: the accepted files keep
      the order they were selected in. */
  lemma {:induction false} AcceptedFilesAppend(a: seq<File>, b: seq<File>)
    ensures AcceptedFiles(a + b) == AcceptedFiles(a) + AcceptedFiles(b)
  {
    if a == [] {
      assert a + b == b;
    } else {
      assert (a + b)[0] == a[0] && (a + b)[1..] == a[1..] + b;
      AcceptedFilesAppend(a[1..], b);
    }
  }

  /** A selection of small enough files is taken whole. */
  lemma {:induction false} AcceptedFilesAllSmall(files: seq<File>)
    requires forall i :: 0 <= i < |files| ==> files[i].size <= MaxAttachmentSize
    ensures AcceptedFiles(files) == files
  {
    if files != [] {
      AcceptedFilesAllSmall(files[1..]);
    }
  }

  /** `[...prev, ...newFiles].slice(0, 10)`: the attachments already there
      come first and, when there are at most ten of them, all stay; after
      them come as many accepted files as fit. */
  function WithSelected(attachments: seq<File>, files: seq<File>): (r: seq<File>)
    ensures |r| == Min(|attachments| + |AcceptedFiles(files)|, MaxAttachments)
    ensures |attachments| <= MaxAttachments ==> r == attachments + AcceptedFiles(files)[..|r| - |attachments|]
    ensures |attachments| > MaxAttachments ==> r == attachments[..MaxAttachments]
    ensures forall f :: f in r ==> f in attachments || (f in files && f.size <= MaxAttachmentSize)
  {
    var all := attachments + AcceptedFiles(files);
    var r := Take(all, MaxAttachments);
    assert forall f :: f in r ==> f in all;
    assert |attachments| <= MaxAttachments ==> r == attachments + AcceptedFiles(files)[..|r| - |attachments|] by {
      if |attachments| <= MaxAttachments {
        assert r == all[..|r|];
      }
    }
    r
  }

  /** An empty selection leaves a list of at most ten attachments alone. */
  lemma SelectingNothingKeepsAttachments(attachments: seq<File>)
    requires |attachments| <= MaxAttachments
    ensures WithSelected(attachments, []) == attachments
  {
  }

  /** The send button's `canSend`: configured, not loading, not over the
      length limit, and some non-blank text or an embed. Enabled exactly
      when validateMessage would let the draft through and the session is
      configured and idle. */
  function CanSend(message: string, embeds: seq<DiscordEmbed>, isLoading: bool, isConfigured: bool): (ok: bool)
    ensures ok <==> isConfigured && !isLoading && ValidateMessage(message, embeds) == None
  {
    isConfigured && !isLoading && !(|message| > MaxMessageLength) && (Trim(message) != [] || |embeds| > 0)
  }

  /** What the composer hands to onSendMessage. */
  datatype Draft = Draft(content: string, embeds: seq<DiscordEmbed>, attachments: seq<File>)

  /** A submit either alerts the validation error or sends the draft. */
  datatype SubmitOutcome = Alerted(text: string) | Sent(draft: Draft)

  /** The composer's two state cells. */
  class MessageInputForm {
    var message: string
    var attachments: seq<File>

    /** No more than MaxAttachments files, none above MaxAttachmentSize. */
    ghost predicate Valid()
      reads this
    {
      |attachments| <= MaxAttachments && forall f :: f in attachments ==> f.size <= MaxAttachmentSize
    }

    constructor ()
      ensures Valid() && message == [] && attachments == []
    {
      message := [];
      attachments := [];
    }

    /** The textarea's onChange. */
    method SetMessage(text: string)
      modifies this`message
      ensures message == text
    {
      message := text;
    }

    /** handleFileSelect: the accepted files are added behind the present
        ones, up to MaxAttachments. */
    method HandleFileSelect(files: seq<File>)
      requires Valid()
      modifies this`attachments
      ensures Valid()
      ensures attachments == WithSelected(old(attachments), files)
    {
      attachments := WithSelected(attachments, files);
    }

    /** removeAttachment: drops the file at `index`, the rest keep their order. */
    method RemoveAttachment(index: int)
      requires Valid()
      modifies this`attachments
      ensures Valid()
      ensures attachments == RemoveAt(old(attachments), index)
    {
      attachments := RemoveAt(attachments, index);
    }

    /** handleSubmit: a draft validateMessage refuses is alerted and kept;
        any other is sent as it stands and the composer is emptied at once,
        before the send's outcome is known. */
    method HandleSubmit(embeds: seq<DiscordEmbed>) returns (outcome: SubmitOutcome)
      requires Valid()
      modifies this
      ensures Valid()
      ensures ValidateMessage(old(message), embeds) != None ==>
                && outcome == Alerted(ValidateMessage(old(message), embeds).value)
                && message == old(message) && attachments == old(attachments)
      ensures ValidateMessage(old(message), embeds) == None ==>
                && outcome == Sent(Draft(old(message), embeds, old(attachments)))
                && message == [] && attachments == []
    {
      var validationError := ValidateMessage(message, embeds);
      if validationError != None {
        outcome := Alerted(validationError.value);
        return;
      }
      outcome := Sent(Draft(message, embeds, attachments));
      message := [];
      attachments := [];
    }
  }
}
