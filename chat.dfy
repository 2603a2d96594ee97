/** The unread-counter bookkeeping of `src/controllers/chatController.js`:
    opening a conversation about a listing, sending a message, reading the
    messages, and the seller's "mark as read". */
module ChatRoutes {
  import opened Common
  import opened Records
  import opened Store

  /** A missing unread counter counts as zero (`count || 0`). */
  function OrZero(n: Option<nat>): nat {
    if n.Some? then n.value else 0
  }

  /** Both unread counters of a chat together. */
  function Unread(c: Chat): nat {
    OrZero(c.buyerUnreadCount) + OrZero(c.sellerUnreadCount)
  }

  // ------------------------------------------------------- start or get chat

  /** The chat `Chat.findOne({ listing, buyers: buyer })` looks for. */
  predicate ChatOf(c: Chat, l: Id, buyer: Id) {
    c.listing == l && buyer in c.buyers
  }

  /** The first matching chat with an id in `[i, bound)`, in id order, which
      is the order chats were created in. */
  function FindChatFrom(chats: map<Id, Chat>, l: Id, buyer: Id, i: nat, bound: nat): (r: Option<Id>)
    decreases bound - i
    ensures r.Some? ==> i <= r.value < bound && r.value in chats && ChatOf(chats[r.value], l, buyer)
    ensures r.Some? ==> forall j :: i <= j < r.value && j in chats ==> !ChatOf(chats[j], l, buyer)
    ensures r.None? ==> forall j :: i <= j < bound && j in chats ==> !ChatOf(chats[j], l, buyer)
  {
    if i >= bound then None
    else if i in chats && ChatOf(chats[i], l, buyer) then Some(i)
    else FindChatFrom(chats, l, buyer, i + 1, bound)
  }

  /** The existing chat between `buyer` and the seller of listing `l`. */
  function FindChat(st: State, l: Id, buyer: Id): Option<Id> {
    FindChatFrom(st.chats, l, buyer, 0, st.nextId)
  }

  /** `listing.storeName || "Mağaza"`. */
  function StoreNameOf(listing: Listing): (r: string)
    ensures r != ""
    ensures Truthy(listing.storeName) ==> r == listing.storeName.value
  {
    if Truthy(listing.storeName) then listing.storeName.value else "Mağaza"
  }

  /** The answers of `startOrGetChat`: 400 without a listing id, 404 for an
      unknown listing, or the chat. */
  datatype StartResponse = ChatListingIdMissing | ChatListingNotFound | ChatReady(chatId: Id, chat: Chat)

  function StartOrGetChatSpec(st: State, buyer: Id, listingId: Option<Id>): (StartResponse, State) {
    if listingId.None? then (ChatListingIdMissing, st)
    else if listingId.value !in st.listings then (ChatListingNotFound, st)
    else
      var l := listingId.value;
      var storeName := StoreNameOf(st.listings[l]);
      match FindChat(st, l, buyer)
      case None =>
        var c := Chat([buyer], st.listings[l].seller, l, None, Some(storeName), Some(0), Some(0));
        (ChatReady(st.nextId, c), st.(chats := st.chats[st.nextId := c], nextId := st.nextId + 1))
      case Some(id) =>
        if Truthy(st.chats[id].storeName) then (ChatReady(id, st.chats[id]), st)
        else
          var c := st.chats[id].(storeName := Some(storeName));
          (ChatReady(id, c), st.(chats := st.chats[id := c]))
  }

  /** No buyer has two chats about the same listing. */
  ghost predicate ChatsUnique(chats: map<Id, Chat>) {
    forall a, b, u :: a in chats && b in chats && ChatOf(chats[a], chats[b].listing, u) && ChatOf(chats[b], chats[a].listing, u) ==> a == b
  }

  /** Without a listing id or with an unknown listing nothing is written.
      Otherwise the answer is the buyer's chat about that listing: the one
      that existed, with an empty store name filled in and nothing else
      changed, or else exactly one new chat with the listing's seller, the
      buyer alone among its buyers, no unread messages and the store name.
      The store invariant and the one-chat-per-buyer-and-listing rule are
      kept. */
  lemma StartOrGetChatContract(st: State, buyer: Id, listingId: Option<Id>)
    requires Invariant(st)
    ensures var (r, st') := StartOrGetChatSpec(st, buyer, listingId);
      && Invariant(st')
      && (r.ChatListingIdMissing? <==> listingId.None?)
      && (r.ChatListingNotFound? <==> listingId.Some? && listingId.value !in st.listings)
      && (!r.ChatReady? ==> st' == st)
      && (r.ChatReady? ==>
            var l := listingId.value;
            && st'.chats[r.chatId] == r.chat
            && ChatOf(r.chat, l, buyer)
            && r.chat.seller == (if r.chatId in st.chats then st.chats[r.chatId].seller else st.listings[l].seller)
            && Truthy(r.chat.storeName)
            && st' == st.(chats := st'.chats, nextId := st'.nextId)
            && st'.chats == st.chats[r.chatId := r.chat]
            && (r.chatId in st.chats ==>
                  && ChatOf(st.chats[r.chatId], l, buyer)
                  && st'.nextId == st.nextId
                  && r.chat == st.chats[r.chatId].(storeName := r.chat.storeName)
                  && (Truthy(st.chats[r.chatId].storeName) ==> r.chat == st.chats[r.chatId]))
            && (r.chatId !in st.chats ==>
                  && (forall j :: j in st.chats ==> !ChatOf(st.chats[j], l, buyer))
                  && r.chat == Chat([buyer], st.listings[l].seller, l, None, Some(StoreNameOf(st.listings[l])), Some(0), Some(0))))
  {
  }

  /** Opening a chat keeps the one-chat-per-buyer-and-listing rule: a new
      chat is made only when the buyer had none about the listing. */
  lemma StartOrGetChatKeepsChatsUnique(st: State, buyer: Id, listingId: Option<Id>)
    requires Invariant(st) && ChatsUnique(st.chats)
    ensures ChatsUnique(StartOrGetChatSpec(st, buyer, listingId).1.chats)
  {
    var (r, st') := StartOrGetChatSpec(st, buyer, listingId);
    if r.ChatReady? && r.chatId !in st.chats {
      var l := listingId.value;
      assert forall j :: j in st.chats ==> !ChatOf(st.chats[j], l, buyer);
      forall a, b, u | a in st'.chats && b in st'.chats && ChatOf(st'.chats[a], st'.chats[b].listing, u) && ChatOf(st'.chats[b], st'.chats[a].listing, u)
        ensures a == b
      {
      }
    }
  }

  /** Opening the same chat twice gives the same chat and writes nothing the
      second time. */
  lemma StartOrGetChatIsIdempotent(st: State, buyer: Id, listingId: Option<Id>)
    requires Invariant(st)
    ensures var (r, st') := StartOrGetChatSpec(st, buyer, listingId);
      StartOrGetChatSpec(st', buyer, listingId) == (r, st')
  {
    var (r, st') := StartOrGetChatSpec(st, buyer, listingId);
    if r.ChatReady? {
      var l := listingId.value;
      assert r.chatId < st'.nextId && r.chatId in st'.chats && ChatOf(st'.chats[r.chatId], l, buyer);
      forall j | 0 <= j < r.chatId && j in st'.chats
        ensures !ChatOf(st'.chats[j], l, buyer)
      {
        assert j in st.chats && st'.chats[j] == st.chats[j];
      }
      assert FindChat(st', l, buyer) == Some(r.chatId);
    }
  }

  /** `startOrGetChat` on the store. */
  method StartOrGetChat(db: Db, buyer: Id, listingId: Option<Id>) returns (r: StartResponse)
    modifies db`chats, db`nextId
    ensures (r, db.Snapshot()) == StartOrGetChatSpec(old(db.Snapshot()), buyer, listingId)
  {
    if listingId.None? {
      return ChatListingIdMissing;
    }
    var l := listingId.value;
    if l !in db.listings {
      return ChatListingNotFound;
    }
    var listing := db.listings[l];
    var storeName := StoreNameOf(listing);
    var found := FindChatFrom(db.chats, l, buyer, 0, db.nextId);
    if found.None? {
      var c := Chat([buyer], listing.seller, l, None, Some(storeName), Some(0), Some(0));
      var id := db.NewId();
      db.chats := db.chats[id := c];
      r := ChatReady(id, c);
    } else {
      var id := found.value;
      var c := db.chats[id];
      if !Truthy(c.storeName) {
        c := c.(storeName := Some(storeName));
        db.chats := db.chats[id := c];
      }
      r := ChatReady(id, c);
    }
  }

  // ----------------------------------------------------------- send message

  /** The answers of `sendMessage`: 404 for an unknown chat (the message is
      already stored by then), or 201 with the message. */
  datatype SendResponse = SendChatNotFound | MessageSent(message: Message)

  /** A chat after a message from `sender`: the other side's counter goes up
      by one and the last message is the text. */
  function Delivered(c: Chat, sender: Id, text: Option<string>): Chat {
    if sender in c.buyers then c.(lastMessage := text, sellerUnreadCount := Some(OrZero(c.sellerUnreadCount) + 1))
    else c.(lastMessage := text, buyerUnreadCount := Some(OrZero(c.buyerUnreadCount) + 1))
  }

  function SendMessageSpec(st: State, chatId: Id, sender: Id, text: Option<string>): (SendResponse, State) {
    var m := Message(chatId, sender, text, [sender]);
    var st1 := st.(messages := st.messages + [m]);
    if chatId !in st.chats then (SendChatNotFound, st1)
    else (MessageSent(m), st1.(chats := st.chats[chatId := Delivered(st.chats[chatId], sender, text)]))
  }

  /** The message, seen by its sender only, is stored whether or not the chat
      exists. In an existing chat a buyer's message raises only the seller's
      counter and anyone else's raises only the buyers' counter, each by one,
      and the last message becomes the text; nothing else about the chat, and
      no other chat, changes. */
  lemma SendMessageContract(st: State, chatId: Id, sender: Id, text: Option<string>)
    ensures var (r, st') := SendMessageSpec(st, chatId, sender, text);
      && st'.messages == st.messages + [Message(chatId, sender, text, [sender])]
      && st' == st.(messages := st'.messages, chats := st'.chats)
      && (Invariant(st) ==> Invariant(st'))
      && (r.SendChatNotFound? <==> chatId !in st.chats)
      && (r.SendChatNotFound? ==> st'.chats == st.chats)
      && (r.MessageSent? ==>
            var c := st.chats[chatId];
            var c' := st'.chats[chatId];
            && r.message == Message(chatId, sender, text, [sender])
            && st'.chats == st.chats[chatId := c']
            && c'.lastMessage == text
            && c'.buyers == c.buyers && c'.seller == c.seller && c'.listing == c.listing && c'.storeName == c.storeName
            && Unread(c') == Unread(c) + 1
            && (sender in c.buyers ==> OrZero(c'.sellerUnreadCount) == OrZero(c.sellerUnreadCount) + 1 && c'.buyerUnreadCount == c.buyerUnreadCount)
            && (sender !in c.buyers ==> OrZero(c'.buyerUnreadCount) == OrZero(c.buyerUnreadCount) + 1 && c'.sellerUnreadCount == c.sellerUnreadCount))
  {
  }

  /** `sendMessage` on the store. */
  method SendMessage(db: Db, chatId: Id, sender: Id, text: Option<string>) returns (r: SendResponse)
    modifies db`messages, db`chats
    ensures (r, db.Snapshot()) == SendMessageSpec(old(db.Snapshot()), chatId, sender, text)
  {
    var m := Message(chatId, sender, text, [sender]);
    db.messages := db.messages + [m];
    if chatId !in db.chats {
      return SendChatNotFound;
    }
    var c := db.chats[chatId];
    if sender in c.buyers {
      c := c.(lastMessage := text, sellerUnreadCount := Some(OrZero(c.sellerUnreadCount) + 1));
    } else {
      c := c.(lastMessage := text, buyerUnreadCount := Some(OrZero(c.buyerUnreadCount) + 1));
    }
    db.chats := db.chats[chatId := c];
    r := MessageSent(m);
  }

  // -------------------------------------------------------- reading messages

  /** `$addToSet: { seenBy: u }`. */
  function AddSeen(m: Message, u: Id): (r: Message)
    ensures u in r.seenBy
    ensures forall v :: v in r.seenBy <==> v in m.seenBy || v == u
    ensures (forall a, b :: 0 <= a < b < |m.seenBy| ==> m.seenBy[a] != m.seenBy[b]) ==>
      (forall a, b :: 0 <= a < b < |r.seenBy| ==> r.seenBy[a] != r.seenBy[b])
    ensures r.(seenBy := m.seenBy) == m
  {
    if u in m.seenBy then m else m.(seenBy := m.seenBy + [u])
  }

  /** `Message.updateMany({ chat: chatId }, { $addToSet: { seenBy: u } })`. */
  function MarkSeen(ms: seq<Message>, chatId: Id, u: Id): seq<Message> {
    seq(|ms|, i requires 0 <= i < |ms| => if ms[i].chat == chatId then AddSeen(ms[i], u) else ms[i])
  }

  /** Every message of the chat is seen by `u` afterwards, the seen-by sets
      grow by `u` alone and keep no duplicates, other chats' messages are
      untouched, and marking again changes nothing. */
  lemma MarkSeenContract(ms: seq<Message>, chatId: Id, u: Id)
    ensures var r := MarkSeen(ms, chatId, u);
      && |r| == |ms|
      && (forall i :: 0 <= i < |ms| && ms[i].chat == chatId ==> u in r[i].seenBy)
      && (forall i, v :: 0 <= i < |ms| && ms[i].chat == chatId ==> (v in r[i].seenBy <==> v in ms[i].seenBy || v == u))
      && (forall i :: 0 <= i < |ms| ==> r[i].(seenBy := ms[i].seenBy) == ms[i])
      && (forall i :: 0 <= i < |ms| && ms[i].chat != chatId ==> r[i] == ms[i])
      && (forall i :: 0 <= i < |ms| && (forall a, b :: 0 <= a < b < |ms[i].seenBy| ==> ms[i].seenBy[a] != ms[i].seenBy[b]) ==>
            (forall a, b :: 0 <= a < b < |r[i].seenBy| ==> r[i].seenBy[a] != r[i].seenBy[b]))
      && MarkSeen(r, chatId, u) == r
  {
  }

  /** The chat's messages in the order they were sent: what
      `Message.find({ chat: chatId }).sort({ createdAt: 1 })` returns. */
  function MessagesOf(ms: seq<Message>, chatId: Id): (r: seq<Message>)
    ensures |r| <= |ms|
    ensures forall k :: 0 <= k < |r| ==> r[k].chat == chatId && r[k] in ms
    ensures forall i :: 0 <= i < |ms| && ms[i].chat == chatId ==> ms[i] in r
  {
    if ms == [] then []
    else
      var prefix := MessagesOf(ms[..|ms| - 1], chatId);
      var last := ms[|ms| - 1];
      if last.chat == chatId then prefix + [last] else prefix
  }

  /** Listing distributes over the store's order: the messages of an
      earlier stretch come before those of a later one, each kept as often
      as it is stored. */
  lemma {:induction false} MessagesOfConcat(a: seq<Message>, b: seq<Message>, chatId: Id)
    ensures MessagesOf(a + b, chatId) == MessagesOf(a, chatId) + MessagesOf(b, chatId)
    decreases |b|
  {
    if b == [] {
      assert a + b == a;
    } else {
      var b0 := b[..|b| - 1];
      assert (a + b)[..|a + b| - 1] == a + b0;
      assert b[..|b| - 1] == b0;
      MessagesOfConcat(a, b0, chatId);
    }
  }

  /** One stored message is listed exactly when it belongs to the chat. */
  lemma MessagesOfSingle(m: Message, chatId: Id)
    ensures MessagesOf([m], chatId) == (if m.chat == chatId then [m] else [])
  {
    assert [m][..0] == [];
  }

  /** A message sent to a chat is listed after every earlier message of that
      chat, and no other chat's list changes: the store keeps messages in
      the order they were created, which is the `createdAt` order. */
  lemma SentMessageIsListedLast(st: State, chatId: Id, sender: Id, text: Option<string>, other: Id)
    ensures var (_, st') := SendMessageSpec(st, chatId, sender, text);
      && MessagesOf(st'.messages, chatId) == MessagesOf(st.messages, chatId) + [Message(chatId, sender, text, [sender])]
      && (other != chatId ==> MessagesOf(st'.messages, other) == MessagesOf(st.messages, other))
  {
    var m := Message(chatId, sender, text, [sender]);
    MessagesOfConcat(st.messages, [m], chatId);
    MessagesOfConcat(st.messages, [m], other);
    MessagesOfSingle(m, chatId);
    MessagesOfSingle(m, other);
  }

  /** `getMessages`: the chat's messages as they were before this read, all
      marked seen by the reader, and the reader's side of the unread
      counters reset (a reader among the buyers resets the buyers' counter,
      anyone else the seller's). A missing chat only skips the reset. */
  function GetMessagesSpec(st: State, chatId: Id, reader: Id): (seq<Message>, State) {
    var chats' :=
      if chatId !in st.chats then st.chats
      else if reader in st.chats[chatId].buyers then st.chats[chatId := st.chats[chatId].(buyerUnreadCount := Some(0))]
      else st.chats[chatId := st.chats[chatId].(sellerUnreadCount := Some(0))];
    (MessagesOf(st.messages, chatId), st.(messages := MarkSeen(st.messages, chatId, reader), chats := chats'))
  }

  /** Reading resets exactly the reader's side: the other counter is kept,
      nothing else about the chat changes, and no other chat changes. */
  lemma GetMessagesContract(st: State, chatId: Id, reader: Id)
    ensures var (shown, st') := GetMessagesSpec(st, chatId, reader);
      && shown == MessagesOf(st.messages, chatId)
      && st' == st.(messages := st'.messages, chats := st'.chats)
      && st'.messages == MarkSeen(st.messages, chatId, reader)
      && st'.chats.Keys == st.chats.Keys
      && (forall id :: id in st.chats && id != chatId ==> st'.chats[id] == st.chats[id])
      && (Invariant(st) ==> Invariant(st'))
      && (chatId in st.chats ==>
            var c := st.chats[chatId];
            var c' := st'.chats[chatId];
            && (reader in c.buyers ==> c' == c.(buyerUnreadCount := Some(0)))
            && (reader !in c.buyers ==> c' == c.(sellerUnreadCount := Some(0)))
            && Unread(c') <= Unread(c))
  {
  }

  /** A second read at once returns the same messages, now seen by the
      reader, and writes nothing. */
  lemma GetMessagesIsIdempotent(st: State, chatId: Id, reader: Id)
    ensures var (_, st') := GetMessagesSpec(st, chatId, reader);
      GetMessagesSpec(st', chatId, reader).1 == st'
  {
    MarkSeenContract(st.messages, chatId, reader);
  }

  /** A buyer's message is cleared from the seller's counter when the seller
      (not among the buyers) reads the chat. */
  lemma SellerReadClearsBuyerMessage(st: State, chatId: Id, buyer: Id, seller: Id, text: Option<string>)
    requires chatId in st.chats && buyer in st.chats[chatId].buyers && seller !in st.chats[chatId].buyers
    ensures var (_, st1) := SendMessageSpec(st, chatId, buyer, text);
      var (_, st2) := GetMessagesSpec(st1, chatId, seller);
      && OrZero(st1.chats[chatId].sellerUnreadCount) == OrZero(st.chats[chatId].sellerUnreadCount) + 1
      && OrZero(st2.chats[chatId].sellerUnreadCount) == 0
      && st2.chats[chatId].buyerUnreadCount == st.chats[chatId].buyerUnreadCount
      && st2.messages[|st.messages|].seenBy == [buyer, seller]
  {
  }

  /** The `updateMany` marking the chat's messages seen, one message at a
      time. */
  method MarkSeenInPlace(db: Db, chatId: Id, u: Id)
    modifies db`messages
    ensures db.messages == MarkSeen(old(db.messages), chatId, u)
  {
    ghost var target := MarkSeen(db.messages, chatId, u);
    ghost var ms0 := db.messages;
    var i := 0;
    while i < |db.messages|
      invariant 0 <= i <= |db.messages| == |ms0| == |target|
      invariant forall k :: 0 <= k < i ==> db.messages[k] == target[k]
      invariant forall k :: i <= k < |db.messages| ==> db.messages[k] == ms0[k]
    {
      if db.messages[i].chat == chatId && u !in db.messages[i].seenBy {
        db.messages := db.messages[i := db.messages[i].(seenBy := db.messages[i].seenBy + [u])];
      }
      i := i + 1;
    }
  }

  /** `getMessages` on the store. */
  method GetMessages(db: Db, chatId: Id, reader: Id) returns (shown: seq<Message>)
    modifies db`messages, db`chats
    ensures (shown, db.Snapshot()) == GetMessagesSpec(old(db.Snapshot()), chatId, reader)
  {
    shown := MessagesOf(db.messages, chatId);
    MarkSeenInPlace(db, chatId, reader);
    if chatId in db.chats {
      var c := db.chats[chatId];
      if reader in c.buyers {
        db.chats := db.chats[chatId := c.(buyerUnreadCount := Some(0))];
      } else {
        db.chats := db.chats[chatId := c.(sellerUnreadCount := Some(0))];
      }
    }
  }

  /** `markSellerRead`: every message of the chat is marked seen by the
      reader and the seller's counter is reset, whoever the reader is; a
      missing chat only skips the reset. */
  function MarkSellerReadSpec(st: State, chatId: Id, reader: Id): State {
    st.(messages := MarkSeen(st.messages, chatId, reader),
        chats := if chatId in st.chats then st.chats[chatId := st.chats[chatId].(sellerUnreadCount := Some(0))] else st.chats)
  }

  /** The seller's counter ends at zero, the buyers' counter and every other
      chat are kept, and a second call writes nothing. */
  lemma MarkSellerReadContract(st: State, chatId: Id, reader: Id)
    ensures var st' := MarkSellerReadSpec(st, chatId, reader);
      && st' == st.(messages := st'.messages, chats := st'.chats)
      && st'.messages == MarkSeen(st.messages, chatId, reader)
      && st'.chats.Keys == st.chats.Keys
      && (forall id :: id in st.chats && id != chatId ==> st'.chats[id] == st.chats[id])
      && (chatId in st.chats ==>
            && OrZero(st'.chats[chatId].sellerUnreadCount) == 0
            && st'.chats[chatId] == st.chats[chatId].(sellerUnreadCount := Some(0)))
      && (Invariant(st) ==> Invariant(st'))
      && MarkSellerReadSpec(st', chatId, reader) == st'
  {
    MarkSeenContract(st.messages, chatId, reader);
  }

  /** `markSellerRead` on the store. */
  method MarkSellerRead(db: Db, chatId: Id, reader: Id)
    modifies db`messages, db`chats
    ensures db.Snapshot() == MarkSellerReadSpec(old(db.Snapshot()), chatId, reader)
  {
    MarkSeenInPlace(db, chatId, reader);
    if chatId in db.chats {
      db.chats := db.chats[chatId := db.chats[chatId].(sellerUnreadCount := Some(0))];
    }
  }
}
