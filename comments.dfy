/** The comment board: the form's local validation and reset, the image
    acceptance check, the local prepend of a submitted comment, and the
    header count and list that are rendered from the board's state. */
module Comments {
  import opened Common

  // ---------------------------------------------------------------------------
  // `String.prototype.trim`
  // ---------------------------------------------------------------------------

  /** The characters `trim` removes: ECMAScript WhiteSpace (tab, vertical tab,
      form feed, space, no-break space, byte order mark and the other space
      separators) and LineTerminator (line feed, carriage return, line and
      paragraph separators). */
  const WHITESPACE: set<char> :=
    {'\U{0009}', '\U{000B}', '\U{000C}', '\U{0020}', '\U{00A0}', '\U{FEFF}', '\U{1680}',
     '\U{2000}', '\U{2001}', '\U{2002}', '\U{2003}', '\U{2004}', '\U{2005}', '\U{2006}',
     '\U{2007}', '\U{2008}', '\U{2009}', '\U{200A}', '\U{202F}', '\U{205F}', '\U{3000}',
     '\U{000A}', '\U{000D}', '\U{2028}', '\U{2029}'}

  predicate IsWhitespace(c: char)
  {
    c in WHITESPACE
  }

  /** The string with its leading whitespace removed. */
  function TrimStart(s: string): (r: string)
    ensures |r| <= |s| && r == s[|s| - |r|..]
    ensures forall i :: 0 <= i < |s| - |r| ==> IsWhitespace(s[i])
    ensures r != [] ==> !IsWhitespace(r[0])
  {
    if s != [] && IsWhitespace(s[0]) then TrimStart(s[1..]) else s
  }

  /** The string with its trailing whitespace removed. */
  function TrimEnd(s: string): (r: string)
    ensures |r| <= |s| && r == s[..|r|]
    ensures forall i :: |r| <= i < |s| ==> IsWhitespace(s[i])
    ensures r != [] ==> !IsWhitespace(r[|r| - 1])
  {
    if s != [] && IsWhitespace(s[|s| - 1]) then TrimEnd(s[..|s| - 1]) else s
  }

  /** `s.trim()`: the leading whitespace is dropped, then the trailing
      whitespace; what is left neither starts nor ends with whitespace. */
  function Trim(s: string): (r: string)
    ensures |r| <= |s|
    ensures r != [] ==> !IsWhitespace(r[0]) && !IsWhitespace(r[|r| - 1])
  {
    if s != [] && IsWhitespace(s[0]) then Trim(s[1..]) else TrimEnd(s)
  }

  lemma {:induction false} TrimIsEndOfStart(s: string)
    ensures Trim(s) == TrimEnd(TrimStart(s))
  {
    if s != [] && IsWhitespace(s[0]) {
      TrimIsEndOfStart(s[1..]);
    }
  }

  /** What `trim` keeps is a slice of `s`: the part after its leading whitespace. */
  lemma {:induction false} TrimIsSlice(s: string)
    ensures var i := |s| - |TrimStart(s)|; var r := Trim(s);
            i + |r| <= |s| && r == s[i..i + |r|]
  {
    if s != [] && IsWhitespace(s[0]) {
      TrimIsSlice(s[1..]);
      assert TrimStart(s) == TrimStart(s[1..]);
    } else {
      assert TrimStart(s) == s;
    }
  }

  /** ... and what `trim` drops after that slice is whitespace. */
  lemma {:induction false} TrimDropsTrailingWhitespace(s: string)
    ensures var i := |s| - |TrimStart(s)|;
            forall k :: i + |Trim(s)| <= k < |s| ==> IsWhitespace(s[k])
  {
    if s != [] && IsWhitespace(s[0]) {
      TrimDropsTrailingWhitespace(s[1..]);
      assert TrimStart(s) == TrimStart(s[1..]);
      assert forall k :: 1 <= k < |s| ==> s[k] == s[1..][k - 1];
    } else {
      assert TrimStart(s) == s;
    }
  }

  /** `!s.trim()`: the trimmed string is empty exactly when every character is whitespace. */
  lemma {:induction false} TrimEmptyIffAllWhitespace(s: string)
    ensures Trim(s) == [] <==> forall i :: 0 <= i < |s| ==> IsWhitespace(s[i])
  {
    if s != [] && IsWhitespace(s[0]) {
      TrimEmptyIffAllWhitespace(s[1..]);
      assert forall i :: 1 <= i < |s| ==> s[i] == s[1..][i - 1];
    }
  }

  // ---------------------------------------------------------------------------
  // The form
  // ---------------------------------------------------------------------------

  const NAME_MAX_LENGTH: nat := 15
  const MESSAGE_MAX_LENGTH: nat := 200
  const MAX_IMAGE_SIZE: nat := 5 * 1024 * 1024

  /** A file chosen in the file input: its size in bytes and its MIME type. */
  datatype ImageFile = ImageFile(name: string, size: nat, mimeType: string)

  /** What the form hands to the board when it is submitted. */
  datatype NewCommentInput = NewCommentInput(newComment: string, userName: string, imageFile: Option<ImageFile>)

  /** The form's submit guard: both the message and the name must contain
      something other than whitespace. */
  function FormAccepts(newComment: string, userName: string): (ok: bool)
    ensures ok <==> ((exists i :: 0 <= i < |newComment| && !IsWhitespace(newComment[i]))
                  && (exists j :: 0 <= j < |userName| && !IsWhitespace(userName[j])))
  {
    TrimEmptyIffAllWhitespace(newComment);
    TrimEmptyIffAllWhitespace(userName);
    Trim(newComment) != [] && Trim(userName) != []
  }

  /** The outcome of `handleImageChange`. */
  datatype ImageCheck = NoFile | TooLarge | NotAnImage | Accepted(file: ImageFile)

  /** The image acceptance check: the size cap is tested before the type. */
  function CheckImage(file: Option<ImageFile>): (r: ImageCheck)
    ensures r == NoFile <==> file.None?
    ensures r == TooLarge <==> file.Some? && file.value.size > MAX_IMAGE_SIZE
    ensures r == NotAnImage <==> file.Some? && file.value.size <= MAX_IMAGE_SIZE && !("image/" <= file.value.mimeType)
    ensures r.Accepted? <==> file.Some? && file.value.size <= MAX_IMAGE_SIZE && "image/" <= file.value.mimeType
    ensures r.Accepted? ==> file == Some(r.file)
  {
    match file
    case None => NoFile
    case Some(f) =>
      if f.size > MAX_IMAGE_SIZE then TooLarge
      else if !("image/" <= f.mimeType) then NotAnImage
      else Accepted(f)
  }

  /** The length JavaScript reports for a string: characters outside the
      Basic Multilingual Plane take two UTF-16 code units. */
  function Utf16Length(s: string): (n: nat)
    ensures |s| <= n <= 2 * |s|
  {
    if s == [] then 0 else (if s[0] as int > 0xFFFF then 2 else 1) + Utf16Length(s[1..])
  }

  /** The form's own state. */
  class CommentForm {
    var newComment: string
    var userName: string
    var imagePreview: Option<string>
    var imageFile: Option<ImageFile>

    /** The inputs' `maxLength` limits, counted in UTF-16 code units. */
    ghost predicate Valid()
      reads this
    {
      Utf16Length(userName) <= NAME_MAX_LENGTH && Utf16Length(newComment) <= MESSAGE_MAX_LENGTH
    }

    constructor ()
      ensures Valid()
      ensures newComment == "" && userName == "" && imagePreview == None && imageFile == None
    {
      newComment, userName, imagePreview, imageFile := "", "", None, None;
    }

    /** Typing in the name input. The browser hands over a value within the
        input's `maxLength` of 15, and the form stores it as it is. */
    method SetUserName(v: string)
      requires Valid() && Utf16Length(v) <= NAME_MAX_LENGTH
      modifies this
      ensures Valid() && userName == v
      ensures newComment == old(newComment) && imagePreview == old(imagePreview) && imageFile == old(imageFile)
    {
      userName := v;
    }

    /** Typing in the message textarea. The browser hands over a value within
        its `maxLength` of 200, and the form stores it as it is. */
    method SetNewComment(v: string)
      requires Valid() && Utf16Length(v) <= MESSAGE_MAX_LENGTH
      modifies this
      ensures Valid() && newComment == v
      ensures userName == old(userName) && imagePreview == old(imagePreview) && imageFile == old(imageFile)
    {
      newComment := v;
    }

    /** `handleImageChange`: only a file that passes both checks becomes the
        selected file; a rejected file leaves the form as it was. */
    method HandleImageChange(file: Option<ImageFile>) returns (check: ImageCheck)
      requires Valid()
      modifies this
      ensures Valid()
      ensures check == CheckImage(file)
      ensures imageFile == (if check.Accepted? then Some(check.file) else old(imageFile))
      ensures newComment == old(newComment) && userName == old(userName) && imagePreview == old(imagePreview)
    {
      check := CheckImage(file);
      if check.Accepted? {
        imageFile := Some(check.file);
      }
    }

    /** The file reader finishing: the preview becomes the data URL it produced. */
    method PreviewLoaded(dataUrl: string)
      requires Valid()
      modifies this
      ensures Valid()
      ensures imagePreview == Some(dataUrl)
      ensures newComment == old(newComment) && userName == old(userName) && imageFile == old(imageFile)
    {
      imagePreview := Some(dataUrl);
    }

    /** The "Remove Photo" button. */
    method RemovePhoto()
      requires Valid()
      modifies this
      ensures Valid()
      ensures imagePreview == None && imageFile == None
      ensures newComment == old(newComment) && userName == old(userName)
    {
      imagePreview, imageFile := None, None;
    }

    /** `handleSubmit`: a rejected submit changes nothing and sends nothing;
        an accepted one sends the untrimmed message, name and file, then
        clears every field. */
    method HandleSubmit() returns (sent: Option<NewCommentInput>)
      requires Valid()
      modifies this
      ensures Valid()
      ensures sent.Some? <==> FormAccepts(old(newComment), old(userName))
      ensures sent.Some? ==> sent.value == NewCommentInput(old(newComment), old(userName), old(imageFile))
      ensures sent.Some? ==> newComment == "" && userName == "" && imagePreview == None && imageFile == None
      ensures sent.None? ==> unchanged(this)
    {
      var accepted := FormAccepts(newComment, userName);
      if !accepted {
        return None;
      }
      sent := Some(NewCommentInput(newComment, userName, imageFile));
      assert Utf16Length("") == 0;
      newComment, userName, imagePreview, imageFile := "", "", None, None;
    }
  }

  // ---------------------------------------------------------------------------
  // The board
  // ---------------------------------------------------------------------------

  datatype Comment = Comment(
    id: int,
    user_name: string,
    content: string,
    created_at: string,
    profile_image: Option<string>,
    is_pinned: bool)

  /** The entry built after the simulated delay. The id (`Date.now()`), the
      timestamp and the object URL made for the image come from outside. */
  function NewEntry(input: NewCommentInput, now: int, isoTime: string, objectUrl: string): (c: Comment)
    ensures c.user_name == input.userName && c.content == input.newComment
    ensures !c.is_pinned
    ensures c.profile_image.None? <==> input.imageFile.None?
    ensures c.id == now && c.created_at == isoTime
  {
    Comment(now, input.userName, input.newComment, isoTime,
            if input.imageFile.Some? then Some(objectUrl) else None, false)
  }

  /** One row of the rendered list. */
  datatype Row = PinnedCard(c: Comment) | Card(c: Comment) | EmptyNotice

  function Cards(feed: seq<Comment>): (rows: seq<Row>)
    ensures |rows| == |feed|
    ensures forall i :: 0 <= i < |feed| ==> rows[i] == Card(feed[i])
  {
    if feed == [] then [] else [Card(feed[0])] + Cards(feed[1..])
  }

  /** The rendered list: the pinned comment first, then either the feed or
      the "No comments yet" notice. */
  function Render(pinned: Option<Comment>, feed: seq<Comment>): (rows: seq<Row>)
    ensures |rows| == (if pinned.Some? then 1 else 0) + (if feed == [] then 1 else |feed|)
    ensures pinned.Some? ==> rows[0] == PinnedCard(pinned.value)
    ensures feed == [] ==> rows[|rows| - 1] == EmptyNotice
  {
    (if pinned.Some? then [PinnedCard(pinned.value)] else [])
    + (if feed == [] then [EmptyNotice] else Cards(feed))
  }

  /** The number of comment cards among the rows. */
  function CardCount(rows: seq<Row>): nat
  {
    if rows == [] then 0 else (if rows[0].EmptyNotice? then 0 else 1) + CardCount(rows[1..])
  }

  lemma {:induction false} CardCountAppend(a: seq<Row>, b: seq<Row>)
    ensures CardCount(a + b) == CardCount(a) + CardCount(b)
  {
    if a != [] {
      assert (a + b)[0] == a[0];
      assert (a + b)[1..] == a[1..] + b;
      CardCountAppend(a[1..], b);
      assert CardCount(a + b) == (if a[0].EmptyNotice? then 0 else 1) + CardCount(a[1..] + b);
    } else {
      assert a + b == b;
    }
  }

  lemma {:induction false} CardCountCards(feed: seq<Comment>)
    ensures CardCount(Cards(feed)) == |feed|
  {
    if feed != [] {
      CardCountCards(feed[1..]);
    }
  }

  /** The rendered list holds one card per feed comment and one for the
      pinned comment; the notice is not a card. */
  lemma RenderedCardCount(pinned: Option<Comment>, feed: seq<Comment>)
    ensures CardCount(Render(pinned, feed)) == |feed| + (if pinned.Some? then 1 else 0)
  {
    var head: seq<Row> := if pinned.Some? then [PinnedCard(pinned.value)] else [];
    var tail: seq<Row> := if feed == [] then [EmptyNotice] else Cards(feed);
    CardCountAppend(head, tail);
    CardCountCards(feed);
    assert CardCount(head) == (if pinned.Some? then 1 else 0) by {
      if pinned.Some? { assert head[1..] == []; }
    }
    assert feed == [] ==> CardCount(tail) == 0 by {
      if feed == [] { assert tail[1..] == []; }
    }
  }

  /** The header count, `comments.length + (pinnedComment ? 1 : 0)`: the
      number of comment cards rendered below it. */
  function TotalComments(pinned: Option<Comment>, feed: seq<Comment>): (n: nat)
    ensures n == CardCount(Render(pinned, feed))
  {
    RenderedCardCount(pinned, feed);
    |feed| + (if pinned.Some? then 1 else 0)
  }

  /** The pinned comment renders ahead of the feed, and the notice appears
      exactly when the feed is empty, whether or not a comment is pinned. */
  lemma RenderLayout(pinned: Option<Comment>, feed: seq<Comment>)
    ensures pinned.Some? ==> Render(pinned, feed)[0] == PinnedCard(pinned.value)
    ensures EmptyNotice in Render(pinned, feed) <==> feed == []
    ensures forall i :: 0 <= i < |feed| ==> Render(pinned, feed)[i + (if pinned.Some? then 1 else 0)] == Card(feed[i])
  {
    var rows := Render(pinned, feed);
    var off := if pinned.Some? then 1 else 0;
    if feed != [] {
      forall k | 0 <= k < |rows| ensures rows[k] != EmptyNotice {
        if k >= off {
          assert rows[k] == Cards(feed)[k - off];
        }
      }
    }
  }

  /** Submitting shows the new entry as the first card after the pinned one,
      the earlier cards after it in their order, and raises the count by one. */
  lemma SubmitShowsEntryFirst(pinned: Option<Comment>, feed: seq<Comment>, entry: Comment)
    ensures var off := if pinned.Some? then 1 else 0;
            && Render(pinned, [entry] + feed)[off] == Card(entry)
            && Render(pinned, [entry] + feed)[off + 1..] == Cards(feed)
            && TotalComments(pinned, [entry] + feed) == TotalComments(pinned, feed) + 1
  {
    var off := if pinned.Some? then 1 else 0;
    var rows := Render(pinned, [entry] + feed);
    assert rows[off..] == Cards([entry] + feed);
    assert ([entry] + feed)[1..] == feed;
  }

  /** The board's state. */
  class Board {
    var pinnedComment: Option<Comment>
    var comments: seq<Comment>
    var isSubmitting: bool
    var error: string

    constructor ()
      ensures pinnedComment == None && comments == [] && !isSubmitting && error == ""
    {
      pinnedComment, comments, isSubmitting, error := None, [], false, "";
    }

    /** The mount effect that loads the pinned comment and the feed. */
    method Load(pinned: Option<Comment>, feed: seq<Comment>)
      modifies this
      ensures pinnedComment == pinned && comments == feed
      ensures isSubmitting == old(isSubmitting) && error == old(error)
    {
      pinnedComment, comments := pinned, feed;
    }

    /** The submit button: disabled while a submission is in flight. */
    function SubmitDisabled(): (disabled: bool)
      reads this
      ensures disabled <==> isSubmitting
    {
      isSubmitting
    }

    /** The part of `handleCommentSubmit` that runs before the delay. */
    method BeginSubmit()
      modifies this
      ensures error == "" && isSubmitting
      ensures SubmitDisabled()
      ensures pinnedComment == old(pinnedComment) && comments == old(comments)
    {
      error := "";
      isSubmitting := true;
    }

    /** The part of `handleCommentSubmit` that runs after the delay: one new,
        unpinned entry goes in front of the feed, and the form is enabled again. */
    method FinishSubmit(input: NewCommentInput, now: int, isoTime: string, objectUrl: string)
      modifies this
      ensures comments == [NewEntry(input, now, isoTime, objectUrl)] + old(comments)
      ensures |comments| == |old(comments)| + 1 && comments[1..] == old(comments)
      ensures !isSubmitting && !SubmitDisabled()
      ensures pinnedComment == old(pinnedComment) && error == old(error)
    {
      var entry := NewEntry(input, now, isoTime, objectUrl);
      comments := [entry] + comments;
      isSubmitting := false;
    }

    /** A submit event on the form. While the button is disabled the event
        never reaches the form; otherwise the form validates and, when it
        sends something, the board starts the submission. */
    method SubmitForm(form: CommentForm) returns (sent: Option<NewCommentInput>)
      requires form.Valid()
      modifies this, form
      ensures form.Valid()
      ensures old(isSubmitting) ==> sent.None? && unchanged(form) && unchanged(this)
      ensures !old(isSubmitting) ==> (sent.Some? <==> FormAccepts(old(form.newComment), old(form.userName)))
      ensures sent.Some? ==> (sent.value == NewCommentInput(old(form.newComment), old(form.userName), old(form.imageFile))
                           && isSubmitting && error == "")
      ensures sent.None? ==> unchanged(this) && unchanged(form)
      ensures sent.Some? ==> form.newComment == "" && form.userName == "" && form.imagePreview == None && form.imageFile == None
      ensures pinnedComment == old(pinnedComment) && comments == old(comments)
    {
      if isSubmitting {
        return None;
      }
      sent := form.HandleSubmit();
      if sent.Some? {
        BeginSubmit();
      }
    }
  }
}
