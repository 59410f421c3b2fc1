/** The bridge's wire records (internal/model/model.go), as values. */
module Records {

  datatype Option<+T> = None | Some(value: T)

  newtype Byte = b: int | 0 <= b < 256
  type Bytes = seq<Byte>

  /** Nanoseconds; 0 is Go's zero time, earlier than every real one. */
  type Time = nat

  const SCHEMA: nat := 1
  const PREVIEW_LIMIT: nat := 160
  const UINT32: nat := 0x1_0000_0000
  const MAX_UINT64: nat := 0xFFFF_FFFF_FFFF_FFFF

  datatype Participant = Participant(id: string, name: string, address: string, isMe: bool)

  datatype Attachment = Attachment(
    id: string, name: string, mime: string, size: int,
    available: bool, preview: bool, requestable: bool)

  datatype Reaction = Reaction(emoji: string, participants: seq<string>)

  datatype Conversation = Conversation(
    archived: bool, pinned: bool, mutedUntil: Time, schema: nat, id: string, name: string,
    preview: string, updated: Time, unread: bool, unreadCount: nat, readOnly: bool,
    protocol: string, state: string, participants: seq<Participant>,
    previewSenderID: string, previewDirection: string)

  datatype Message = Message(
    schema: nat, id: string, conversationID: string, senderID: string, time: Time,
    text: string, subject: string, direction: string, status: string, deleted: bool,
    readOnly: bool, transactionID: string,
    attachments: seq<Attachment>, reactions: seq<Reaction>)

  datatype SendRequest = SendRequest(
    kind: string, recipients: seq<string>, groupName: string, attachmentIDs: seq<string>,
    messageID: string, emoji: string, remove: bool, conversationID: string, text: string)
  {
    predicate Equal(other: SendRequest)
    {
      && kind == other.kind && groupName == other.groupName
      && conversationID == other.conversationID && text == other.text
      && messageID == other.messageID && emoji == other.emoji && remove == other.remove
      && recipients == other.recipients && attachmentIDs == other.attachmentIDs
    }
  }

  datatype OutboxState = Queued | Sending | Accepted | Rejected | Ambiguous | Confirmed | Canceled

  datatype Outbox = Outbox(
    conversationID: string, sessionEpoch: nat, schema: nat, id: string, request: SendRequest,
    transactionID: string, state: OutboxState, messageID: string, detail: string,
    created: Time, updated: Time)

  datatype JobState = JobQueued | JobPaused | JobComplete | JobFailed

  datatype HistoryJob = HistoryJob(
    generation: nat, sessionEpoch: nat, schema: nat, id: string, kind: string,
    conversationID: string, folder: string, state: JobState, pages: nat, records: nat,
    detail: string, updated: Time, retryAt: Time)

  datatype PairingRecovery = PairingRecovery(
    enabled: bool, phoneNumber: string, attempts: nat, paused: bool, nextAttempt: Time)

  // ---- PreviewText ----

  /** The characters Go's unicode.IsSpace accepts. */
  predicate IsSpace(c: char)
  {
    || c == '\t' || c == '\n' || c == '\U{0B}' || c == '\U{0C}' || c == '\r' || c == ' '
    || c == '\U{85}' || c == '\U{A0}' || c == '\U{1680}' || '\U{2000}' <= c <= '\U{200A}'
    || c == '\U{2028}' || c == '\U{2029}' || c == '\U{202F}' || c == '\U{205F}' || c == '\U{3000}'
  }

  predicate Blank(s: string)
  {
    forall i :: 0 <= i < |s| ==> IsSpace(s[i])
  }

  function WordLength(s: string): (n: nat)
    ensures n <= |s|
    ensures s != "" && !IsSpace(s[0]) ==> n > 0
  {
    if s == "" || IsSpace(s[0]) then 0 else 1 + WordLength(s[1..])
  }

  /** strings.Fields followed by strings.Join with one space. */
  function Collapse(s: string): string
    decreases |s|
  {
    if s == "" then ""
    else if IsSpace(s[0]) then Collapse(s[1..])
    else
      var n := WordLength(s);
      var rest := Collapse(s[n..]);
      if rest == "" then s[..n] else s[..n] + " " + rest
  }

  function BeforeSlash(s: string): string
  {
    if s == "" || s[0] == '/' then "" else [s[0]] + BeforeSlash(s[1..])
  }

  function TrimSpacesRight(s: string): (r: string)
    ensures r <= s
    decreases |s|
  {
    if s != "" && s[|s| - 1] == ' ' then TrimSpacesRight(s[..|s| - 1]) else s
  }

  function AttachmentLabel(mime: string): string
  {
    var kind := BeforeSlash(mime);
    if kind == "image" then "Photo"
    else if kind == "video" then "Video"
    else if kind == "audio" then "Audio message"
    else "Attachment"
  }

  function PreviewText(m: Message): string
  {
    var text := Collapse(m.text);
    var described := if text == "" && |m.attachments| > 0 then AttachmentLabel(m.attachments[0].mime) else text;
    if |described| > PREVIEW_LIMIT
    then TrimSpacesRight(described[..PREVIEW_LIMIT]) + "…"
    else described
  }

  lemma {:induction false} CollapseEmpty(s: string)
    ensures Collapse(s) == "" <==> Blank(s)
    decreases |s|
  {
    if s != "" && IsSpace(s[0]) {
      CollapseEmpty(s[1..]);
      assert Blank(s) ==> Blank(s[1..]);
      assert Blank(s[1..]) ==> Blank(s) by {
        if Blank(s[1..]) {
          forall i | 0 <= i < |s| ensures IsSpace(s[i]) { assert i > 0 ==> s[i] == s[1..][i - 1]; }
        }
      }
    }
  }

  /** The words of a text: its longest stretches without space. */
  function Words(s: string): seq<string>
    decreases |s|
  {
    if s == "" then []
    else if IsSpace(s[0]) then Words(s[1..])
    else [s[..WordLength(s)]] + Words(s[WordLength(s)..])
  }

  /** Single blanks between words, and none at either end. */
  predicate Tidy(s: string)
  {
    forall i :: 0 <= i < |s| && IsSpace(s[i]) ==> s[i] == ' ' && 0 < i < |s| - 1 && !IsSpace(s[i - 1]) && !IsSpace(s[i + 1])
  }

  lemma {:induction false} WordHasNoSpace(s: string)
    ensures forall i :: 0 <= i < WordLength(s) ==> !IsSpace(s[i])
    ensures WordLength(s) < |s| ==> IsSpace(s[WordLength(s)])
  {
    if s != "" && !IsSpace(s[0]) {
      WordHasNoSpace(s[1..]);
      forall i | 0 <= i < WordLength(s) ensures !IsSpace(s[i]) { assert i > 0 ==> s[i] == s[1..][i - 1]; }
    }
  }

  lemma {:induction false} WordEnds(word: string, tail: string)
    requires forall i :: 0 <= i < |word| ==> !IsSpace(word[i])
    requires tail == "" || IsSpace(tail[0])
    ensures WordLength(word + tail) == |word|
  {
    if word == "" {
      assert word + tail == tail;
    } else {
      assert (word + tail)[1..] == word[1..] + tail;
      WordEnds(word[1..], tail);
    }
  }

  lemma WordsOf(word: string, tail: string)
    requires word != "" && forall i :: 0 <= i < |word| ==> !IsSpace(word[i])
    requires tail == "" || IsSpace(tail[0])
    ensures Words(word + tail) == [word] + Words(tail)
  {
    WordEnds(word, tail);
    assert (word + tail)[..|word|] == word && (word + tail)[|word|..] == tail;
  }

  /** Collapsing a text keeps its words, in order, and leaves single blanks between them. */
  lemma {:induction false} CollapseKeepsWords(s: string)
    ensures Words(Collapse(s)) == Words(s) && Tidy(Collapse(s))
    decreases |s|
  {
    if s != "" {
      if IsSpace(s[0]) {
        CollapseKeepsWords(s[1..]);
      } else {
        var n := WordLength(s);
        var word, rest := s[..n], Collapse(s[n..]);
        WordHasNoSpace(s);
        CollapseKeepsWords(s[n..]);
        if rest == "" {
          WordsOf(word, "");
          assert word + "" == word;
        } else {
          WordsOf(word, " " + rest);
          assert (" " + rest)[1..] == rest && word + " " + rest == word + (" " + rest);
        }
      }
    }
  }

  /** A tidy text is a word, and after a blank another tidy text, which is not empty. */
  lemma TidyTail(s: string, n: nat, tail: string)
    requires Tidy(s) && n < |s| && 0 < n && IsSpace(s[n]) && tail == s[n + 1..]
    ensures s[n] == ' ' && tail != "" && !IsSpace(tail[0]) && Tidy(tail)
  {
    assert s[n + 1] == tail[0];
    forall i | 0 <= i < |tail| && IsSpace(tail[i])
      ensures tail[i] == ' ' && 0 < i < |tail| - 1 && !IsSpace(tail[i - 1]) && !IsSpace(tail[i + 1]) {
      assert tail[i] == s[n + 1 + i];
    }
  }

  lemma TidyWords(s: string, n: nat)
    requires Tidy(s) && s != "" && n == WordLength(s)
    ensures 0 < n && Words(s) == [s[..n]] + Words(s[n..])
    ensures n < |s| ==> s[n] == ' ' && Tidy(s[n + 1..]) && Words(s[n..]) == Words(s[n + 1..])
    ensures n < |s| <==> Words(s[n..]) != []
  {
    WordHasNoSpace(s);
    assert !IsSpace(s[0]);
    if n < |s| {
      TidyTail(s, n, s[n + 1..]);
      assert s[n..][1..] == s[n + 1..];
    }
  }

  lemma SameFirstWord(a: string, b: string, n: nat)
    requires Tidy(a) && Tidy(b) && Words(a) == Words(b) && a != "" && b != "" && n == WordLength(a)
    ensures n <= |b| && a[..n] == b[..n] && (n < |a| <==> n < |b|)
    ensures n < |a| ==>
      a[n] == b[n] && Tidy(a[n + 1..]) && Tidy(b[n + 1..]) && Words(a[n + 1..]) == Words(b[n + 1..])
  {
    TidyWords(a, n);
    TidyWords(b, WordLength(b));
    assert a[..n] == Words(a)[0] == b[..WordLength(b)];
    assert Words(a[n..]) == Words(a)[1..] == Words(b[n..]);
  }

  lemma SameParts(a: string, b: string, n: nat)
    requires n <= |a| && n <= |b| && a[..n] == b[..n] && (n < |a| <==> n < |b|)
    requires n < |a| ==> a[n] == b[n] && a[n + 1..] == b[n + 1..]
    ensures a == b
  {
    if n < |a| {
      assert a == a[..n] + [a[n]] + a[n + 1..] && b == b[..n] + [b[n]] + b[n + 1..];
    } else {
      assert a == a[..n] && b == b[..n];
    }
  }

  /** Two tidy texts with the same words are the same text. */
  lemma {:induction false} TidyIsUnique(a: string, b: string)
    requires Tidy(a) && Tidy(b) && Words(a) == Words(b)
    ensures a == b
    decreases |a|
  {
    var n := WordLength(a);
    if a != "" && b != "" {
      SameFirstWord(a, b, n);
      if n < |a| { TidyIsUnique(a[n + 1..], b[n + 1..]); }
      SameParts(a, b, n);
    } else {
      EmptyWords(a);
      EmptyWords(b);
    }
  }

  lemma EmptyWords(s: string)
    requires Tidy(s)
    ensures s == "" <==> Words(s) == []
  {
    if s != "" { TidyWords(s, WordLength(s)); }
  }

  /** What a row shows of a text: all of it, or as much as fits, without the blanks it would end in, and an ellipsis. */
  ghost predicate ShortOf(text: string, shown: string)
  {
    if |text| <= PREVIEW_LIMIT then shown == text
    else exists n :: CutAt(text, shown, n)
  }

  ghost predicate CutAt(text: string, shown: string, n: int)
  {
    && 0 <= n <= PREVIEW_LIMIT < |text| && shown == text[..n] + "…"
    && (n > 0 ==> text[n - 1] != ' ') && (forall i :: n <= i < PREVIEW_LIMIT ==> text[i] == ' ')
  }

  lemma {:induction false} TrimmedAt(s: string)
    ensures var n := |TrimSpacesRight(s)|;
      && n <= |s| && TrimSpacesRight(s) == s[..n]
      && (n > 0 ==> s[n - 1] != ' ') && (forall i :: n <= i < |s| ==> s[i] == ' ')
  {
    if s != "" && s[|s| - 1] == ' ' { TrimmedAt(s[..|s| - 1]); }
  }

  lemma ShortenedText(text: string)
    ensures ShortOf(text, if |text| > PREVIEW_LIMIT then TrimSpacesRight(text[..PREVIEW_LIMIT]) + "…" else text)
  {
    if |text| > PREVIEW_LIMIT {
      var head := text[..PREVIEW_LIMIT];
      TrimmedAt(head);
      var n := |TrimSpacesRight(head)|;
      assert head[..n] == text[..n];
      assert CutAt(text, TrimSpacesRight(head) + "…", n);
    }
  }

  /** The part of a MIME type before its first slash. */
  predicate OfKind(mime: string, kind: string)
  {
    mime == kind || (|mime| > |kind| && mime[..|kind|] == kind && mime[|kind|] == '/')
  }

  lemma {:induction false} KindIsBeforeSlash(mime: string, kind: string)
    requires forall i :: 0 <= i < |kind| ==> kind[i] != '/'
    ensures BeforeSlash(mime) == kind <==> OfKind(mime, kind)
  {
    if mime != "" && mime[0] != '/' && kind != "" {
      KindIsBeforeSlash(mime[1..], kind[1..]);
      assert kind == [kind[0]] + kind[1..] && mime == [mime[0]] + mime[1..];
      if |mime| > |kind| { assert mime[..|kind|] == [mime[0]] + mime[1..][..|kind| - 1]; }
    }
  }

  lemma LabelMeaning(mime: string)
    ensures var shown := AttachmentLabel(mime);
      && (shown == "Photo" <==> OfKind(mime, "image")) && (shown == "Video" <==> OfKind(mime, "video"))
      && (shown == "Audio message" <==> OfKind(mime, "audio"))
      && (shown == "Photo" || shown == "Video" || shown == "Audio message" || shown == "Attachment")
  {
    KindIsBeforeSlash(mime, "image");
    KindIsBeforeSlash(mime, "video");
    KindIsBeforeSlash(mime, "audio");
    assert "image"[0] == 'i' && "video"[0] == 'v' && "audio"[0] == 'a';
  }

  /**
   * The preview of a message: its words with single blanks between them, shortened;
   * without text, the name of what it carries; empty exactly without either.
   */
  lemma PreviewTextMeaning(m: Message)
    ensures PreviewText(m) == "" <==> Blank(m.text) && m.attachments == []
    ensures |PreviewText(m)| <= PREVIEW_LIMIT + 1
    ensures !Blank(m.text) ==> exists text :: Words(text) == Words(m.text) && Tidy(text) && ShortOf(text, PreviewText(m))
    ensures Blank(m.text) && m.attachments != [] ==>
      var mime, shown := m.attachments[0].mime, PreviewText(m);
      && (shown == "Photo" <==> OfKind(mime, "image")) && (shown == "Video" <==> OfKind(mime, "video"))
      && (shown == "Audio message" <==> OfKind(mime, "audio"))
      && (shown == "Photo" || shown == "Video" || shown == "Audio message" || shown == "Attachment")
  {
    if Blank(m.text) && m.attachments != [] { LabelMeaning(m.attachments[0].mime); }
    CollapseEmpty(m.text);
    CollapseKeepsWords(m.text);
    ShortenedText(Collapse(m.text));
  }

  /** Idempotency keys compare whole requests: field-by-field equality is equality. */
  lemma EqualIsIdentity(a: SendRequest, b: SendRequest)
    ensures a.Equal(b) <==> a == b
  {
  }
}
