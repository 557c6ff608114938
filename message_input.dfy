// The message composer: its text and image-preview state, the guard that
// decides whether a submit sends anything, the payload it sends, and the
// image picker's MIME check.
module Composer {
  import opened Common
  import opened Chat

  /**
   * The characters `String.prototype.trim` removes: the ECMAScript WhiteSpace
   * code points (tab, vertical tab, form feed, space, no-break space, the byte
   * order mark and the other space separators) and the LineTerminators.
   */
  predicate IsWhitespace(c: char)
  {
    || c == '\t' || c == '\U{000B}' || c == '\U{000C}' || c == ' ' || c == '\U{00A0}' || c == '\U{FEFF}'
    || c == '\U{1680}' || ('\U{2000}' <= c <= '\U{200A}') || c == '\U{202F}' || c == '\U{205F}' || c == '\U{3000}'
    || c == '\n' || c == '\r' || c == '\U{2028}' || c == '\U{2029}'
  }

  function TrimStart(s: string): (t: string)
    ensures |t| <= |s|
  {
    if s != [] && IsWhitespace(s[0]) then TrimStart(s[1..]) else s
  }

  function TrimEnd(s: string): (t: string)
    ensures |t| <= |s|
  {
    if s != [] && IsWhitespace(s[|s| - 1]) then TrimEnd(s[..|s| - 1]) else s
  }

  /** `s.trim()`: an infix of `s` that neither starts nor ends with whitespace. */
  function Trim(s: string): (t: string)
    ensures |t| <= |TrimStart(s)| <= |s|
    ensures t == s[|s| - |TrimStart(s)|..|s| - |TrimStart(s)| + |t|]
    ensures t != [] ==> !IsWhitespace(t[0]) && !IsWhitespace(t[|t| - 1])
  {
    TrimStartIsSuffix(s);
    TrimEndIsPrefix(TrimStart(s));
    var t := TrimEnd(TrimStart(s));
    assert t != [] ==> t[0] == TrimStart(s)[0];
    t
  }

  /** The submit guard: there is text after trimming, or a truthy image preview. */
  predicate CanSend(text: string, imagePreview: Option<string>): (r: bool)
    ensures r <==> (exists k :: 0 <= k < |text| && !IsWhitespace(text[k])) || Truthy(imagePreview)
  {
    TrimEmptyIff(text);
    Trim(text) != "" || Truthy(imagePreview)
  }

  /** The send button's `disabled` expression. */
  predicate SendDisabled(text: string, imagePreview: Option<string>): (r: bool)
    ensures r <==> (forall k :: 0 <= k < |text| ==> IsWhitespace(text[k])) && !Truthy(imagePreview)
  {
    TrimEmptyIff(text);
    !(Trim(text) != "") && !Truthy(imagePreview)
  }

  /** A picked file, of which only its MIME type is inspected. */
  datatype File = File(mimeType: string)

  /** `file.type.startsWith("image/")`. */
  predicate IsImageType(mimeType: string): (r: bool)
    ensures r <==> "image/" <= mimeType
  {
    |mimeType| >= 6 && mimeType[..6] == "image/"
  }

  // ---------------------------------------------------------------------------
  // Trimming.

  /** `TrimStart` drops a whitespace-only prefix and keeps the rest of the string. */
  lemma {:induction false} TrimStartIsSuffix(s: string)
    ensures var t := TrimStart(s);
            && |t| <= |s| && t == s[|s| - |t|..]
            && (forall k :: 0 <= k < |s| - |t| ==> IsWhitespace(s[k]))
            && (t != [] ==> !IsWhitespace(t[0]))
  {
    if s != [] && IsWhitespace(s[0]) {
      TrimStartIsSuffix(s[1..]);
      var t := TrimStart(s[1..]);
      assert s[1..][|s| - 1 - |t|..] == s[|s| - |t|..];
      forall k | 0 <= k < |s| - |t| ensures IsWhitespace(s[k]) {
        if k > 0 {
          assert s[k] == s[1..][k - 1];
        }
      }
    }
  }

  /** `TrimEnd` drops a whitespace-only suffix and keeps the rest of the string. */
  lemma {:induction false} TrimEndIsPrefix(s: string)
    ensures var t := TrimEnd(s);
            && |t| <= |s| && t == s[..|t|]
            && (forall k :: |t| <= k < |s| ==> IsWhitespace(s[k]))
            && (t != [] ==> !IsWhitespace(t[|t| - 1]))
  {
    if s != [] && IsWhitespace(s[|s| - 1]) {
      var init := s[..|s| - 1];
      TrimEndIsPrefix(init);
      var t := TrimEnd(init);
      assert init[..|t|] == s[..|t|];
      forall k | |t| <= k < |s| ensures IsWhitespace(s[k]) {
        if k < |s| - 1 {
          assert s[k] == init[k];
        }
      }
    }
  }

  /**
   * `trim` removes whitespace from both ends only: the result is an infix of
   * the input, everything outside it is whitespace, and it neither starts nor
   * ends with whitespace.
   */
  lemma TrimIsInfix(s: string)
    ensures var t := Trim(s);
            var i := |s| - |TrimStart(s)|;
            && i + |t| <= |s| && t == s[i..i + |t|]
            && (forall k :: 0 <= k < i ==> IsWhitespace(s[k]))
            && (forall k :: i + |t| <= k < |s| ==> IsWhitespace(s[k]))
            && (t != [] ==> !IsWhitespace(t[0]) && !IsWhitespace(t[|t| - 1]))
  {
    var u := TrimStart(s);
    TrimStartIsSuffix(s);
    TrimEndIsPrefix(u);
    var t := Trim(s);
    assert t == TrimEnd(u);
    var i := |s| - |u|;
    forall k | i + |t| <= k < |s| ensures IsWhitespace(s[k]) {
      assert s[k] == u[k - i];
    }
  }

  /** The trimmed text is empty exactly when the text is whitespace only (the empty text included). */
  lemma {:induction false} TrimEmptyIff(s: string)
    ensures Trim(s) == "" <==> forall k :: 0 <= k < |s| ==> IsWhitespace(s[k])
  {
    TrimIsInfix(s);
    if forall k :: 0 <= k < |s| ==> IsWhitespace(s[k]) {
      AllWhitespaceTrimsToEmpty(s);
    }
  }

  lemma {:induction false} AllWhitespaceTrimsToEmpty(s: string)
    requires forall k :: 0 <= k < |s| ==> IsWhitespace(s[k])
    ensures TrimStart(s) == ""
  {
    if s != [] {
      assert forall k :: 0 <= k < |s| - 1 ==> s[1..][k] == s[k + 1];
      AllWhitespaceTrimsToEmpty(s[1..]);
    }
  }

  /** Trimming twice is trimming once. */
  lemma TrimIdempotent(s: string)
    ensures Trim(Trim(s)) == Trim(s)
  {
    var t := Trim(s);
    TrimIsInfix(s);
    if t != [] {
      assert TrimStart(t) == t;
      assert TrimEnd(t) == t;
    }
  }

  // ---------------------------------------------------------------------------
  // Guard and MIME check.

  /** The button is disabled exactly when the submit handler would return early. */
  lemma DisabledIffGuardFails(text: string, imagePreview: Option<string>)
    ensures SendDisabled(text, imagePreview) <==> !CanSend(text, imagePreview)
  {
  }

  /** Whitespace-only text with no (or an empty) image preview sends nothing. */
  lemma WhitespaceOnlyCannotSend(text: string, imagePreview: Option<string>)
    requires forall k :: 0 <= k < |text| ==> IsWhitespace(text[k])
    requires !Truthy(imagePreview)
    ensures !CanSend(text, imagePreview)
  {
    TrimEmptyIff(text);
  }

  /** A MIME type passes the picker's check exactly when it is `image/` followed by anything. */
  lemma ImageTypeIffPrefixed(mimeType: string)
    ensures IsImageType(mimeType) <==> exists subtype: string :: mimeType == "image/" + subtype
  {
    if IsImageType(mimeType) {
      assert mimeType == "image/" + mimeType[6..];
    }
  }

  // ---------------------------------------------------------------------------
  // The component's state.

  class MessageInput {
    var text: string
    var imagePreview: Option<string>

    constructor ()
      ensures text == "" && imagePreview == None
    {
      text := "";
      imagePreview := None;
    }

    /** The text field's `onChange`. */
    method SetText(value: string)
      modifies this`text
      ensures text == value
    {
      text := value;
    }

    /**
     * `handleImageChange`: a picked image becomes the preview (`dataUrl` is
     * what the file reader produces); no file, or a file whose type is not
     * `image/...`, leaves the preview alone.
     */
    method HandleImageChange(file: Option<File>, dataUrl: string)
      modifies this`imagePreview
      ensures imagePreview == if file.Some? && IsImageType(file.value.mimeType) then Some(dataUrl) else old(imagePreview)
    {
      if file.None? {
        return;
      }
      if !IsImageType(file.value.mimeType) {
        return;
      }
      imagePreview := Some(dataUrl);
    }

    /** `removeImage`: clear the preview; the text stays. */
    method RemoveImage()
      modifies this`imagePreview
      ensures imagePreview == None
    {
      imagePreview := None;
    }

    /**
     * `handleSendMessage`: when the guard passes, send the trimmed text and
     * the preview as it is, then clear both fields. The store's `sendMessage`
     * catches every error, so the fields are cleared even when the request
     * failed.
     */
    method HandleSendMessage(chat: ChatStore, res: Response<Message>) returns (sent: Option<MessageData>)
      modifies this, chat`messages, chat`isMessagesLoading
      ensures sent.None? <==> SendDisabled(old(text), old(imagePreview))
      ensures sent.None? ==> text == old(text) && imagePreview == old(imagePreview)
      ensures sent.None? ==> chat.messages == old(chat.messages) && chat.isMessagesLoading == old(chat.isMessagesLoading)
      ensures sent.Some? ==> sent.value == MessageData(Trim(old(text)), old(imagePreview))
      ensures sent.Some? ==> text == "" && imagePreview == None && !chat.isMessagesLoading
      ensures sent.Some? ==>
                (chat.messages == if chat.selectedUser.Some? && res.Ok? then old(chat.messages) + [res.data] else old(chat.messages))
    {
      if !CanSend(text, imagePreview) {
        return None;
      }
      var data := MessageData(Trim(text), imagePreview);
      chat.SendMessage(data, res);
      text := "";
      imagePreview := None;
      sent := Some(data);
    }
  }
}
