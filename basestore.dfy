/**
 * The two Pinia stores of `baseStore.js`: the application store (a loading
 * flag and the light/dark theme) and the chat store, which holds the message
 * list, the current conversation and the photo wall built from the image
 * messages.
 *
 * `Date.now()` and `new Date()` are read once per action and passed in as
 * `now` (milliseconds).
 */
module BaseStore {
  import opened Text
  import opened Json

  // ---------------------------------------------------------------------------
  // useAppStore
  // ---------------------------------------------------------------------------

  /** The theme `toggleTheme` moves to: 'light' becomes 'dark', anything else becomes 'light'. */
  function NextTheme(theme: string): (t: string)
    ensures t == "light" <==> theme != "light"
    ensures t == "light" || t == "dark"
  {
    if theme == "light" then "dark" else "light"
  }

  /** Toggling twice gives the theme back exactly when it is one of the two themes. */
  lemma ToggleTwice(theme: string)
    ensures NextTheme(NextTheme(theme)) == theme <==> theme == "light" || theme == "dark"
  {
  }

  class AppStore {
    var loading: bool
    var theme: string

    constructor ()
      ensures !loading && theme == "light"
    {
      loading, theme := false, "light";
    }

    method SetLoading(value: bool)
      modifies this
      ensures loading == value && theme == old(theme)
    {
      loading := value;
    }

    method ToggleTheme()
      modifies this
      ensures theme == NextTheme(old(theme)) && loading == old(loading)
    {
      theme := if theme == "light" then "dark" else "light";
    }
  }

  // ---------------------------------------------------------------------------
  // Messages and the photo wall
  // ---------------------------------------------------------------------------

  datatype Kind = User | Image | Ai

  /**
   * A chat message. `imageUrl` and `imageName` are set on image messages
   * only; `conversationId` is null (None) for an AI reply sent while no
   * conversation is current.
   */
  datatype ChatMessage = ChatMessage(
    id: int,
    kind: Kind,
    content: string,
    imageUrl: Option<string>,
    imageName: Option<string>,
    timestamp: int,
    conversationId: Option<string>)

  /** The fields of the `imageData` argument of `addImageMessage` the model keeps. */
  datatype ImageData = ImageData(url: string, name: string)

  /** One photo wall entry: the image message's id (twice), url, name, time and conversation. */
  datatype PhotoEntry = PhotoEntry(
    id: int,
    url: Option<string>,
    name: Option<string>,
    timestamp: int,
    conversationId: Option<string>,
    messageId: int)

  /** `currentConversationId` as a condition: null and '' are falsy. */
  predicate HasConversation(id: Option<string>)
  {
    id.Some? && id.value != ""
  }

  /** The id `createNewConversation` makes at time `now`. */
  function ConversationIdAt(now: int): (id: string)
    ensures StartsWith(id, "conv_") && HasConversation(Some(id))
  {
    "conv_" + IntToDecimal(now)
  }

  /**
   * `currentConversationId || createNewConversation()`: the conversation a
   * new user or image message joins.
   */
  function JoinedConversation(current: Option<string>, now: int): (c: Option<string>)
    ensures HasConversation(c)
    ensures HasConversation(current) ==> c == current
    ensures !HasConversation(current) ==> c == Some(ConversationIdAt(now))
  {
    if HasConversation(current) then current else Some(ConversationIdAt(now))
  }

  /** The message `addUserMessage` appends: the trimmed text, stamped `now`. */
  function UserMessage(content: string, now: int, conversation: Option<string>): ChatMessage
  {
    ChatMessage(now, User, Trim(content), None, None, now, conversation)
  }

  /** `messages.filter(msg => msg.conversationId === id)`. */
  function InConversation(ms: seq<ChatMessage>, id: Option<string>): (r: seq<ChatMessage>)
    ensures |r| <= |ms|
    ensures forall m :: m in r <==> m in ms && m.conversationId == id
  {
    if ms == [] then []
    else (if ms[0].conversationId == id then [ms[0]] else []) + InConversation(ms[1..], id)
  }

  /** `messages.filter(msg => msg.conversationId !== id)`. */
  function OutsideConversation(ms: seq<ChatMessage>, id: Option<string>): (r: seq<ChatMessage>)
    ensures |r| <= |ms|
    ensures forall m :: m in r <==> m in ms && m.conversationId != id
  {
    if ms == [] then []
    else (if ms[0].conversationId != id then [ms[0]] else []) + OutsideConversation(ms[1..], id)
  }

  /** `messages.filter(msg => msg.type === 'image')`. */
  function Images(ms: seq<ChatMessage>): (r: seq<ChatMessage>)
    ensures |r| <= |ms|
    ensures forall m :: m in r <==> m in ms && m.kind == Image
  {
    if ms == [] then []
    else (if ms[0].kind == Image then [ms[0]] else []) + Images(ms[1..])
  }

  /** `messages.filter(msg => msg.conversationId === id && msg.type === 'image')`. */
  function ImagesInConversation(ms: seq<ChatMessage>, id: Option<string>): (r: seq<ChatMessage>)
    ensures forall m :: m in r <==> m in ms && m.conversationId == id && m.kind == Image
  {
    if ms == [] then []
    else
      var head := if ms[0].conversationId == id && ms[0].kind == Image then [ms[0]] else [];
      head + ImagesInConversation(ms[1..], id)
  }

  /**
   * The current conversation's images are the current conversation's
   * messages filtered for images, and the images filtered for the current
   * conversation: the getters agree, in order and multiplicity.
   */
  lemma {:induction false} CurrentImagesCommute(ms: seq<ChatMessage>, id: Option<string>)
    ensures ImagesInConversation(ms, id) == Images(InConversation(ms, id))
    ensures ImagesInConversation(ms, id) == InConversation(Images(ms), id)
  {
    if ms != [] {
      CurrentImagesCommute(ms[1..], id);
      var head := if ms[0].conversationId == id then [ms[0]] else [];
      assert InConversation(ms, id) == head + InConversation(ms[1..], id);
      ImagesAppend(head, InConversation(ms[1..], id));
      var imgs := if ms[0].kind == Image then [ms[0]] else [];
      assert Images(ms) == imgs + Images(ms[1..]);
      InConversationAppend(imgs, Images(ms[1..]), id);
    }
  }

  lemma {:induction false} ImagesAppend(a: seq<ChatMessage>, b: seq<ChatMessage>)
    ensures Images(a + b) == Images(a) + Images(b)
  {
    if a == [] {
      assert a + b == b;
    } else {
      assert (a + b)[0] == a[0];
      assert (a + b)[1..] == a[1..] + b;
      ImagesAppend(a[1..], b);
    }
  }

  lemma {:induction false} InConversationAppend(a: seq<ChatMessage>, b: seq<ChatMessage>, id: Option<string>)
    ensures InConversation(a + b, id) == InConversation(a, id) + InConversation(b, id)
  {
    if a == [] {
      assert a + b == b;
    } else {
      assert (a + b)[0] == a[0];
      assert (a + b)[1..] == a[1..] + b;
      InConversationAppend(a[1..], b, id);
    }
  }

  lemma {:induction false} OutsideConversationAppend(a: seq<ChatMessage>, b: seq<ChatMessage>, id: Option<string>)
    ensures OutsideConversation(a + b, id) == OutsideConversation(a, id) + OutsideConversation(b, id)
  {
    if a == [] {
      assert a + b == b;
    } else {
      assert (a + b)[0] == a[0];
      assert (a + b)[1..] == a[1..] + b;
      OutsideConversationAppend(a[1..], b, id);
    }
  }

  /**
   * Clearing a conversation splits the messages in two: every message is in
   * exactly one of the kept list and the conversation's list, so the number
   * removed is the conversation's size.
   */
  lemma {:induction false} ClearPartitions(ms: seq<ChatMessage>, id: Option<string>)
    ensures |OutsideConversation(ms, id)| + |InConversation(ms, id)| == |ms|
    ensures multiset(OutsideConversation(ms, id)) + multiset(InConversation(ms, id)) == multiset(ms)
  {
    if ms != [] {
      ClearPartitions(ms[1..], id);
      assert ms == [ms[0]] + ms[1..];
    }
  }

  function Entry(m: ChatMessage): PhotoEntry
  {
    PhotoEntry(m.id, m.imageUrl, m.imageName, m.timestamp, m.conversationId, m.id)
  }

  function Entries(ms: seq<ChatMessage>): (r: seq<PhotoEntry>)
    ensures |r| == |ms|
    ensures forall i :: 0 <= i < |ms| ==> r[i] == Entry(ms[i])
  {
    if ms == [] then [] else [Entry(ms[0])] + Entries(ms[1..])
  }

  /** Newest first: no entry is older than one after it. */
  predicate NewestFirst(es: seq<PhotoEntry>)
  {
    forall i, j :: 0 <= i < j < |es| ==> es[i].timestamp >= es[j].timestamp
  }

  /**
   * Places `e` in front of the first entry that is not newer than it, so
   * that an entry coming earlier in the message list stays ahead of later
   * ones with the same time, as the stable `Array.prototype.sort` keeps them.
   */
  function InsertByTime(e: PhotoEntry, es: seq<PhotoEntry>): (r: seq<PhotoEntry>)
    ensures multiset(r) == multiset(es) + multiset{e}
  {
    if es == [] || es[0].timestamp <= e.timestamp then [e] + es
    else
      assert es == [es[0]] + es[1..];
      [es[0]] + InsertByTime(e, es[1..])
  }

  /** Inserting into a newest-first list keeps it newest first. */
  lemma {:induction false} InsertKeepsOrder(e: PhotoEntry, es: seq<PhotoEntry>)
    requires NewestFirst(es)
    ensures NewestFirst(InsertByTime(e, es))
  {
    if es == [] || es[0].timestamp <= e.timestamp {
    } else {
      var rest := InsertByTime(e, es[1..]);
      InsertKeepsOrder(e, es[1..]);
      forall x | x in rest
        ensures es[0].timestamp >= x.timestamp
      {
        assert x in multiset(rest);
        assert x == e || x in multiset(es[1..]);
      }
    }
  }

  /** `.sort((a, b) => new Date(b.timestamp) - new Date(a.timestamp))`: the entries newest first. */
  function SortByTime(es: seq<PhotoEntry>): (r: seq<PhotoEntry>)
    ensures multiset(r) == multiset(es)
  {
    if es == [] then []
    else
      assert es == [es[0]] + es[1..];
      InsertByTime(es[0], SortByTime(es[1..]))
  }

  /** The sorted entries are newest first. */
  lemma {:induction false} SortedNewestFirst(es: seq<PhotoEntry>)
    ensures NewestFirst(SortByTime(es))
  {
    if es != [] {
      SortedNewestFirst(es[1..]);
      InsertKeepsOrder(es[0], SortByTime(es[1..]));
    }
  }

  /** The photo wall `updatePhotoWall` builds from these messages. */
  function PhotoWall(ms: seq<ChatMessage>): seq<PhotoEntry>
  {
    SortByTime(Entries(Images(ms)))
  }

  /**
   * The photo wall holds one entry per image message and nothing else,
   * newest first.
   */
  lemma PhotoWallContents(ms: seq<ChatMessage>)
    ensures multiset(PhotoWall(ms)) == multiset(Entries(Images(ms)))
    ensures NewestFirst(PhotoWall(ms))
    ensures |PhotoWall(ms)| == |Images(ms)|
    ensures forall e :: e in PhotoWall(ms) <==> exists m :: m in ms && m.kind == Image && e == Entry(m)
  {
    var es := Entries(Images(ms));
    SortedNewestFirst(es);
    assert |multiset(PhotoWall(ms))| == |multiset(es)|;
    forall e | e in PhotoWall(ms)
      ensures exists m :: m in ms && m.kind == Image && e == Entry(m)
    {
      assert e in multiset(es);
      var i :| 0 <= i < |es| && es[i] == e;
      assert Images(ms)[i] in Images(ms);
    }
    forall m | m in ms && m.kind == Image
      ensures Entry(m) in PhotoWall(ms)
    {
      assert m in Images(ms);
      var i :| 0 <= i < |Images(ms)| && Images(ms)[i] == m;
      assert es[i] == Entry(m);
      assert Entry(m) in multiset(es);
    }
  }

  /** A message that is not an image leaves the photo wall as it was. */
  lemma NonImageKeepsWall(ms: seq<ChatMessage>, m: ChatMessage)
    requires m.kind != Image
    ensures PhotoWall(ms + [m]) == PhotoWall(ms)
  {
    ImagesAppend(ms, [m]);
    assert Images([m]) == [];
    assert Images(ms) + [] == Images(ms);
  }

  /** The first message with this id, if any. */
  function FindById(ms: seq<ChatMessage>, id: int): (r: Option<nat>)
    ensures r.Some? ==> r.value < |ms| && ms[r.value].id == id && forall i :: 0 <= i < r.value ==> ms[i].id != id
    ensures r.None? ==> forall i :: 0 <= i < |ms| ==> ms[i].id != id
  {
    if ms == [] then None
    else if ms[0].id == id then Some(0)
    else match FindById(ms[1..], id)
      case None => None
      case Some(k) => Some(k + 1)
  }

  // ---------------------------------------------------------------------------
  // useChatStore
  // ---------------------------------------------------------------------------

  class ChatStore {
    var messages: seq<ChatMessage>
    var currentConversationId: Option<string>
    var isLoading: bool
    var showWelcome: bool
    var showPhotoWall: bool
    var photoWallImages: seq<PhotoEntry>

    /** The photo wall reflects the image messages. */
    predicate WallInSync()
      reads this
    {
      photoWallImages == PhotoWall(messages)
    }

    constructor ()
      ensures messages == [] && currentConversationId == None
      ensures !isLoading && showWelcome && !showPhotoWall && photoWallImages == []
      ensures WallInSync()
    {
      messages, currentConversationId := [], None;
      isLoading, showWelcome, showPhotoWall, photoWallImages := false, true, false, [];
    }

    // --- getters ---

    function CurrentMessages(): (r: seq<ChatMessage>)
      reads this
      ensures forall m :: m in r <==> m in messages && m.conversationId == currentConversationId
    {
      InConversation(messages, currentConversationId)
    }

    function HasMessages(): (b: bool)
      reads this
      ensures b <==> messages != []
    {
      |messages| > 0
    }

    function ImageMessages(): (r: seq<ChatMessage>)
      reads this
      ensures forall m :: m in r <==> m in messages && m.kind == Image
    {
      Images(messages)
    }

    function CurrentImageMessages(): (r: seq<ChatMessage>)
      reads this
      ensures r == Images(CurrentMessages()) && r == InConversation(ImageMessages(), currentConversationId)
    {
      CurrentImagesCommute(messages, currentConversationId);
      ImagesInConversation(messages, currentConversationId)
    }

    // --- actions ---

    /** `createNewConversation()`: a fresh current id, the welcome page shown, loading off; messages untouched. */
    method CreateNewConversation(now: int) returns (id: string)
      modifies this
      ensures id == ConversationIdAt(now) && currentConversationId == Some(id)
      ensures showWelcome && !isLoading
      ensures messages == old(messages) && showPhotoWall == old(showPhotoWall)
      ensures photoWallImages == old(photoWallImages)
    {
      id := "conv_" + IntToDecimal(now);
      currentConversationId := Some(id);
      showWelcome := true;
      isLoading := false;
    }

    /**
     * `currentConversationId || createNewConversation()`: the current
     * conversation, or a new one when none is current.
     */
    method JoinConversation(now: int) returns (c: Option<string>)
      modifies this
      ensures c == JoinedConversation(old(currentConversationId), now) && currentConversationId == c
      ensures showWelcome == (!HasConversation(old(currentConversationId)) || old(showWelcome))
      ensures isLoading == (HasConversation(old(currentConversationId)) && old(isLoading))
      ensures messages == old(messages) && showPhotoWall == old(showPhotoWall)
      ensures photoWallImages == old(photoWallImages)
    {
      c := currentConversationId;
      if !HasConversation(c) {
        var id := CreateNewConversation(now);
        c := Some(id);
      }
    }

    /** Pushes a message that is not an image and hides the welcome page. */
    method Append(m: ChatMessage)
      requires m.kind != Image
      modifies this
      ensures messages == old(messages) + [m] && !showWelcome
      ensures currentConversationId == old(currentConversationId) && isLoading == old(isLoading)
      ensures showPhotoWall == old(showPhotoWall) && photoWallImages == old(photoWallImages)
      ensures old(WallInSync()) ==> WallInSync()
    {
      NonImageKeepsWall(messages, m);
      messages := messages + [m];
      showWelcome := false;
    }

    /**
     * `addUserMessage(content)`: appends one user message with the trimmed
     * text, in the current conversation or a new one, and hides the welcome page.
     */
    method AddUserMessage(content: string, now: int) returns (m: ChatMessage)
      modifies this
      ensures m == UserMessage(content, now, JoinedConversation(old(currentConversationId), now))
      ensures currentConversationId == m.conversationId
      ensures messages == old(messages) + [m]
      ensures !showWelcome
      ensures isLoading == (HasConversation(old(currentConversationId)) && old(isLoading))
      ensures showPhotoWall == old(showPhotoWall) && photoWallImages == old(photoWallImages)
      ensures old(WallInSync()) ==> WallInSync()
    {
      var conversation := JoinConversation(now);
      m := UserMessage(content, now, conversation);
      Append(m);
    }

    /**
     * `addImageMessage(imageData, caption)`: appends one image message, in
     * the current conversation or a new one, hides the welcome page and
     * rebuilds the photo wall.
     */
    method AddImageMessage(imageData: ImageData, caption: string, now: int) returns (m: ChatMessage)
      modifies this
      ensures m == ChatMessage(now, Image, caption, Some(imageData.url), Some(imageData.name), now, JoinedConversation(old(currentConversationId), now))
      ensures currentConversationId == m.conversationId
      ensures messages == old(messages) + [m]
      ensures !showWelcome
      ensures isLoading == (HasConversation(old(currentConversationId)) && old(isLoading))
      ensures showPhotoWall == old(showPhotoWall)
      ensures WallInSync()
    {
      var conversation := JoinConversation(now);
      m := ChatMessage(now, Image, caption, Some(imageData.url), Some(imageData.name), now, conversation);
      messages := messages + [m];
      showWelcome := false;
      UpdatePhotoWall();
    }

    /**
     * `addAIMessage(content)`: appends one AI message with id `now + 1` in
     * the current conversation, which may be null; nothing else changes.
     */
    method AddAIMessage(content: string, now: int) returns (m: ChatMessage)
      modifies this
      ensures m == ChatMessage(now + 1, Ai, content, None, None, now, old(currentConversationId))
      ensures messages == old(messages) + [m]
      ensures currentConversationId == old(currentConversationId) && showWelcome == old(showWelcome)
      ensures isLoading == old(isLoading) && showPhotoWall == old(showPhotoWall)
      ensures photoWallImages == old(photoWallImages)
      ensures old(WallInSync()) ==> WallInSync()
    {
      m := ChatMessage(now + 1, Ai, content, None, None, now, currentConversationId);
      NonImageKeepsWall(messages, m);
      messages := messages + [m];
    }

    method SetLoading(value: bool)
      modifies this
      ensures isLoading == value
      ensures messages == old(messages) && currentConversationId == old(currentConversationId)
      ensures showWelcome == old(showWelcome) && showPhotoWall == old(showPhotoWall)
      ensures photoWallImages == old(photoWallImages)
    {
      isLoading := value;
    }

    method SetShowWelcome(show: bool)
      modifies this
      ensures showWelcome == show
      ensures messages == old(messages) && currentConversationId == old(currentConversationId)
      ensures isLoading == old(isLoading) && showPhotoWall == old(showPhotoWall)
      ensures photoWallImages == old(photoWallImages)
    {
      showWelcome := show;
    }

    /**
     * `clearCurrentConversation()`: removes exactly the current
     * conversation's messages, keeping the others in order (none when no
     * conversation is current), shows the welcome page and rebuilds the wall.
     */
    method ClearCurrentConversation()
      modifies this
      ensures HasConversation(old(currentConversationId)) ==>
        messages == OutsideConversation(old(messages), old(currentConversationId))
      ensures !HasConversation(old(currentConversationId)) ==> messages == old(messages)
      ensures showWelcome && WallInSync()
      ensures currentConversationId == old(currentConversationId)
      ensures isLoading == old(isLoading) && showPhotoWall == old(showPhotoWall)
    {
      if HasConversation(currentConversationId) {
        messages := OutsideConversation(messages, currentConversationId);
      }
      showWelcome := true;
      UpdatePhotoWall();
    }

    method TogglePhotoWall()
      modifies this
      ensures showPhotoWall == !old(showPhotoWall)
      ensures messages == old(messages) && currentConversationId == old(currentConversationId)
      ensures isLoading == old(isLoading) && showWelcome == old(showWelcome)
      ensures photoWallImages == old(photoWallImages)
    {
      showPhotoWall := !showPhotoWall;
    }

    /** `updatePhotoWall()`: the wall becomes the image messages' entries, newest first. */
    method UpdatePhotoWall()
      modifies this
      ensures WallInSync()
      ensures messages == old(messages) && currentConversationId == old(currentConversationId)
      ensures isLoading == old(isLoading) && showWelcome == old(showWelcome)
      ensures showPhotoWall == old(showPhotoWall)
    {
      photoWallImages := SortByTime(Entries(Images(messages)));
    }

    /**
     * `scrollToMessage(messageId)`: the first message with that id, switching
     * to its conversation (and hiding the welcome page) when that is not the
     * current one; None and no change when no message has the id.
     */
    method ScrollToMessage(messageId: int) returns (found: Option<ChatMessage>)
      modifies this
      ensures FindById(old(messages), messageId).None? ==>
        found.None? && currentConversationId == old(currentConversationId) && showWelcome == old(showWelcome)
      ensures FindById(old(messages), messageId).Some? ==>
        var m := old(messages)[FindById(old(messages), messageId).value];
        found == Some(m) && currentConversationId == m.conversationId
        && showWelcome == (if m.conversationId != old(currentConversationId) then false else old(showWelcome))
      ensures messages == old(messages) && isLoading == old(isLoading)
      ensures showPhotoWall == old(showPhotoWall) && photoWallImages == old(photoWallImages)
    {
      match FindById(messages, messageId)
      case None =>
        found := None;
      case Some(k) =>
        var m := messages[k];
        if m.conversationId != currentConversationId {
          currentConversationId := m.conversationId;
          showWelcome := false;
        }
        found := Some(m);
    }
  }
}
