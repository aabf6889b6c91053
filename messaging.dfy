/** The messaging screen: who the current user may talk to, one summary per
    counterpart (last message, unread count) ordered by recency, the search
    over the list, the avatar initials and sending a message. */
module Messaging {
  import opened Seqs
  import opened Text
  import opened Entities
  import opened DataStore
  import opened Auth

  // ---------------------------------------------------------------------
  // Who appears in the list

  /** The role matrix: a tenant talks to managers, a manager to owners and
      tenants, an owner to everyone. */
  predicate RoleAllows(viewer: Role, other: Role) {
    match viewer
    case Locataire => other == Gestionnaire
    case Gestionnaire => other == Proprietaire || other == Locataire
    case Proprietaire => true
  }

  predicate NotSelf(current: SessionUser, u: User) {
    u.id != current.id
  }

  predicate AllowedFor(current: SessionUser, u: User) {
    RoleAllows(current.role, u.role)
  }

  /** Everybody but the current user, then restricted by the role matrix. */
  function Counterparts(users: seq<User>, current: SessionUser): (r: seq<User>)
    ensures forall u :: u in r <==> u in users && u.id != current.id && RoleAllows(current.role, u.role)
  {
    var others := Filter(users, u => NotSelf(current, u));
    Filter(others, u => AllowedFor(current, u))
  }

  /** The counterparts keep the order of the user list. */
  lemma CounterpartsInOrder(users: seq<User>, current: SessionUser)
    ensures IsSubseq(Counterparts(users, current), users)
  {
    var others := Filter(users, u => NotSelf(current, u));
    FilterSubseq(users, u => NotSelf(current, u));
    FilterSubseq(others, u => AllowedFor(current, u));
    SubseqTrans(Counterparts(users, current), others, users);
  }

  lemma {:induction false} SubseqTrans<T>(a: seq<T>, b: seq<T>, c: seq<T>)
    requires IsSubseq(a, b) && IsSubseq(b, c)
    ensures IsSubseq(a, c)
    decreases |c|
  {
    if a != [] {
      assert b != [] && c != [];
      if b[0] == c[0] && IsSubseq(b[1..], c[1..]) {
        if a[0] == b[0] && IsSubseq(a[1..], b[1..]) {
          SubseqTrans(a[1..], b[1..], c[1..]);
        } else {
          SubseqTrans(a, b[1..], c[1..]);
        }
      } else {
        SubseqTrans(a, b, c[1..]);
      }
    }
  }

  /** The owner sees every other user, a tenant only managers, a manager
      only owners and tenants; nobody sees themself. */
  lemma CounterpartsByRole(users: seq<User>, current: SessionUser)
    ensures forall u :: u in Counterparts(users, current) ==> u.id != current.id
    ensures current.role == Proprietaire ==>
      forall u :: u in users && u.id != current.id ==> u in Counterparts(users, current)
    ensures current.role == Locataire ==>
      forall u :: u in Counterparts(users, current) ==> u.role == Gestionnaire
    ensures current.role == Gestionnaire ==>
      forall u :: u in Counterparts(users, current) ==> u.role != Gestionnaire
  {
  }

  // ---------------------------------------------------------------------
  // One summary per counterpart

  datatype Conversation = Conversation(user: User, lastMessage: Option<Message>, unreadCount: nat)

  predicate UnreadFor(m: Message, id: string) {
    m.recipientId == id && !m.read
  }

  function Last<T>(s: seq<T>): (r: Option<T>)
    ensures r.None? <==> s == []
    ensures r.Some? ==> r.value == s[|s| - 1]
  {
    if s == [] then None else Some(s[|s| - 1])
  }

  function UnreadTo(id: string): Message -> bool {
    m => UnreadFor(m, id)
  }

  /** The summary of the thread between the current user and `u`: the last
      message of the sorted thread, and the number of the pair's messages
      unread by the current user, which sorting does not change. */
  function Summarize(msgs: seq<Message>, currentId: string, u: User): (c: Conversation)
    ensures c.user == u
    ensures c.lastMessage.None? <==> MessagesBetween(msgs, currentId, u.id) == []
    ensures c.lastMessage.Some? ==> var thread := MessagesBetween(msgs, currentId, u.id);
      c.lastMessage.value == thread[|thread| - 1]
    ensures c.unreadCount == Count(Thread(msgs, currentId, u.id), UnreadTo(currentId))
    ensures c.unreadCount <= |MessagesBetween(msgs, currentId, u.id)|
    ensures c.unreadCount == 0 <==>
      forall m :: m in msgs && Exchanged(m, currentId, u.id) ==> !UnreadFor(m, currentId)
  {
    var thread := MessagesBetween(msgs, currentId, u.id);
    var unread := UnreadTo(currentId);
    CountPermutation(thread, Thread(msgs, currentId, u.id), unread);
    assert Count(thread, unread) == 0 <==> forall m :: m in thread ==> !unread(m);
    Conversation(u, Last(thread), Count(thread, unread))
  }

  /** The last message is the latest of the thread: no message of the thread
      is newer. */
  lemma LastMessageIsLatest(msgs: seq<Message>, currentId: string, u: User)
    ensures var c := Summarize(msgs, currentId, u);
      c.lastMessage.Some? ==>
        c.lastMessage.value in msgs && Exchanged(c.lastMessage.value, currentId, u.id) &&
        forall m :: m in msgs && Exchanged(m, currentId, u.id) ==> m.createdAt <= c.lastMessage.value.createdAt
  {
    var thread := MessagesBetween(msgs, currentId, u.id);
    var c := Summarize(msgs, currentId, u);
    assert c.lastMessage == Last(thread);
    if thread != [] {
      var last := thread[|thread| - 1];
      assert last in thread;
      MessagesBetweenOrdered(msgs, currentId, u.id);
      SortedLastIsMax(thread, CreatedAt);
      forall m | m in msgs && Exchanged(m, currentId, u.id) ensures m.createdAt <= last.createdAt {
        assert m in thread;
        assert CreatedAt(m) <= CreatedAt(last);
      }
    }
  }

  /** A message just sent by `sender` to `recipient`, stamped no earlier than
      any stored message, becomes the last message of the recipient's
      conversation with the sender. */
  lemma SentMessageShowsLast(msgs: seq<Message>, m: Message, recipientId: string, sender: User)
    requires m.senderId == sender.id && m.recipientId == recipientId
    requires forall x :: x in msgs ==> x.createdAt <= m.createdAt
    ensures Summarize(msgs + [m], recipientId, sender).lastMessage == Some(m)
  {
    NewestMessageEndsThread(msgs, m, recipientId, sender.id);
  }

  /** The time the list is ordered by: the last message's, or 0 without one. */
  function ConversationTime(c: Conversation): int {
    match c.lastMessage
    case Some(m) => m.createdAt
    case None => 0
  }

  /** Descending time, as an ascending key. */
  function Recency(c: Conversation): int {
    -ConversationTime(c)
  }

  function Summaries(msgs: seq<Message>, currentId: string, us: seq<User>): (r: seq<Conversation>)
    ensures |r| == |us|
    ensures forall i :: 0 <= i < |us| ==> r[i] == Summarize(msgs, currentId, us[i])
  {
    seq(|us|, i requires 0 <= i < |us| => Summarize(msgs, currentId, us[i]))
  }

  /** The conversation list: one summary per counterpart, most recent first;
      conversations with the same time keep the order of the user list. */
  function Conversations(users: seq<User>, msgs: seq<Message>, current: SessionUser): (r: seq<Conversation>)
    ensures |r| == |Counterparts(users, current)|
    ensures multiset(r) == multiset(Summaries(msgs, current.id, Counterparts(users, current)))
  {
    SortBy(Summaries(msgs, current.id, Counterparts(users, current)), Recency)
  }

  lemma ConversationsOrdered(users: seq<User>, msgs: seq<Message>, current: SessionUser)
    ensures var r := Conversations(users, msgs, current);
      forall i, j :: 0 <= i < j < |r| ==> ConversationTime(r[i]) >= ConversationTime(r[j])
    ensures forall k :: KeyClass(Conversations(users, msgs, current), Recency, k)
                     == KeyClass(Summaries(msgs, current.id, Counterparts(users, current)), Recency, k)
  {
    SortByCorrect(Summaries(msgs, current.id, Counterparts(users, current)), Recency);
  }

  /** Every entry summarizes a visible counterpart, and every visible
      counterpart has an entry. */
  lemma ConversationsCover(users: seq<User>, msgs: seq<Message>, current: SessionUser)
    ensures forall c :: c in Conversations(users, msgs, current) ==>
      c == Summarize(msgs, current.id, c.user) && c.user in users &&
      c.user.id != current.id && RoleAllows(current.role, c.user.role)
    ensures forall u :: u in users && u.id != current.id && RoleAllows(current.role, u.role) ==>
      Summarize(msgs, current.id, u) in Conversations(users, msgs, current)
  {
    var us := Counterparts(users, current);
    var s := Summaries(msgs, current.id, us);
    var r := Conversations(users, msgs, current);
    forall c | c in r
      ensures c == Summarize(msgs, current.id, c.user) && c.user in us
    {
      assert c in multiset(r);
      assert c in s;
      var i :| 0 <= i < |s| && s[i] == c;
    }
    forall u | u in users && u.id != current.id && RoleAllows(current.role, u.role)
      ensures Summarize(msgs, current.id, u) in r
    {
      var i :| 0 <= i < |us| && us[i] == u;
      assert s[i] in multiset(s);
    }
  }

  /** A conversation with a message newer than the epoch comes before every
      conversation without a message. */
  lemma EmptyConversationsLast(users: seq<User>, msgs: seq<Message>, current: SessionUser, i: int, j: int)
    requires var r := Conversations(users, msgs, current);
      0 <= i < |r| && 0 <= j < |r| && r[i].lastMessage.None? &&
      r[j].lastMessage.Some? && r[j].lastMessage.value.createdAt > 0
    ensures j < i
  {
    var r := Conversations(users, msgs, current);
    ConversationsOrdered(users, msgs, current);
    assert ConversationTime(r[i]) == 0 < ConversationTime(r[j]);
  }

  // ---------------------------------------------------------------------
  // Search, initials

  predicate ConversationMatches(c: Conversation, term: string) {
    SearchMatches(c.user.name, c.user.email, term)
  }

  function FilteredConversations(convs: seq<Conversation>, term: string): (r: seq<Conversation>)
    ensures forall c :: c in r <==> c in convs && SearchMatches(c.user.name, c.user.email, term)
  {
    Filter(convs, c => ConversationMatches(c, term))
  }

  /** The search keeps the list's order, and an empty term keeps it whole. */
  lemma FilteredConversationsInOrder(convs: seq<Conversation>, term: string)
    ensures IsSubseq(FilteredConversations(convs, term), convs)
    ensures term == "" ==> FilteredConversations(convs, term) == convs
  {
    FilterSubseq(convs, c => ConversationMatches(c, term));
    if term == "" {
      forall i | 0 <= i < |convs| ensures ConversationMatches(convs[i], term) {
        EmptyTermMatches(convs[i].user.name, convs[i].user.email);
      }
      FilterAll(convs, c => ConversationMatches(c, term));
    }
  }

  /** `words.map(n => n[0]).join('')`: the first character of each piece; an
      empty piece gives `undefined`, which `join` renders as nothing. */
  function Heads(words: seq<string>): string
    decreases |words|
  {
    if words == [] then []
    else (if words[0] == [] then [] else [words[0][0]]) + Heads(words[1..])
  }

  /** `s[i]` begins a word: it is not a space and follows a space or the start. */
  predicate StartsWord(s: string, i: int) {
    0 <= i < |s| && s[i] != ' ' && (i == 0 || s[i - 1] == ' ')
  }

  lemma HeadsCons(w: string, ws: seq<string>)
    ensures Heads([w] + ws) == (if w == [] then [] else [w[0]]) + Heads(ws)
  {
    assert ([w] + ws)[0] == w && ([w] + ws)[1..] == ws;
  }

  /** A word start of the text after a space is a word start of the whole. */
  lemma StartsWordShift(s: string, i: int, j: int)
    requires 0 <= i < |s| && s[i] == ' ' && StartsWord(s[i + 1..], j)
    ensures StartsWord(s, j + i + 1) && s[i + 1..][j] == s[j + i + 1]
  {
  }

  /** Every character `Heads` collects is the first character of a word. */
  lemma {:induction false} HeadStartsWord(s: string, k: int)
    requires 0 <= k < |Heads(Split(s))|
    ensures exists i :: StartsWord(s, i) && Heads(Split(s))[k] == s[i]
    decreases |s|
  {
    var h := Heads(Split(s));
    match FirstIndex(s, IsSeparator)
    case None =>
      assert Split(s) == [s];
      HeadsCons(s, []);
      assert h[k] == s[0] && StartsWord(s, 0);
    case Some(i) =>
      SplitStep(s, i);
      var rest := s[i + 1..];
      HeadsCons(s[..i], Split(rest));
      if i > 0 && k == 0 {
        assert h[0] == s[0] && StartsWord(s, 0);
      } else {
        var k' := if i > 0 then k - 1 else k;
        assert h[k] == Heads(Split(rest))[k'];
        HeadStartsWord(rest, k');
        var j :| StartsWord(rest, j) && Heads(Split(rest))[k'] == rest[j];
        StartsWordShift(s, i, j);
      }
  }

  /** `getUserInitials`: the upper-cased starts of the first two words, in
      the order of the name. */
  function UserInitials(name: string): (r: string)
    ensures |r| <= 2
    ensures |r| == if |Heads(Split(name))| < 2 then |Heads(Split(name))| else 2
    ensures forall k :: 0 <= k < |r| ==> r[k] == UpperChar(Heads(Split(name))[k])
  {
    var up := Upper(Heads(Split(name)));
    if |up| <= 2 then up else up[..2]
  }

  /** `c` is the upper-cased first character of some word of `name`. */
  predicate InitialOf(name: string, c: char) {
    exists i :: 0 <= i < |name| && StartsWord(name, i) && c == UpperChar(name[i])
  }

  /** Each initial is the upper-cased first character of a word of the name. */
  lemma InitialsStartWords(name: string)
    ensures forall k :: 0 <= k < |UserInitials(name)| ==> InitialOf(name, UserInitials(name)[k])
  {
    var heads := Heads(Split(name));
    var r := UserInitials(name);
    forall k | 0 <= k < |r| ensures InitialOf(name, r[k]) {
      HeadStartsWord(name, k);
      var i :| StartsWord(name, i) && heads[k] == name[i];
      assert r[k] == UpperChar(heads[k]);
    }
  }

  // ---------------------------------------------------------------------
  // Sending

  /** The guard of `sendMessage`: some text besides white space, a selected
      counterpart, no send in flight and a logged-in user. */
  predicate CanSend(text: string, selected: Option<User>, sending: bool, current: Option<SessionUser>) {
    Trim(text) != [] && selected.Some? && !sending && current.Some?
  }

  class MessagingScreen {
    var newMessage: string
    var selected: Option<User>
    var sending: bool

    constructor ()
      ensures newMessage == "" && selected.None? && !sending
    {
      newMessage, selected, sending := "", None, false;
    }

    /** Sends the draft: one text message from the current user to the
        selected counterpart, trimmed and unread; the draft is cleared. When
        the guard fails nothing changes. */
    method Send(store: DataStore.Store, current: Option<SessionUser>, now: nat)
      modifies this, store
      ensures !CanSend(old(newMessage), old(selected), old(sending), current) ==>
        newMessage == old(newMessage) && selected == old(selected) && sending == old(sending) &&
        store.messages == old(store.messages) && store.users == old(store.users) &&
        store.properties == old(store.properties) && store.contracts == old(store.contracts) &&
        store.payments == old(store.payments)
      ensures CanSend(old(newMessage), old(selected), old(sending), current) ==>
        store.messages == old(store.messages) + [Message(GeneratedId("msg-", now),
          current.value.id, old(selected).value.id, Trim(old(newMessage)), TextMessage, now, false)] &&
        store.users == old(store.users) && store.properties == old(store.properties) &&
        store.contracts == old(store.contracts) && store.payments == old(store.payments) &&
        newMessage == "" && selected == old(selected) && !sending
    {
      if !CanSend(newMessage, selected, sending, current) {
        return;
      }
      sending := true;
      var _ := store.AddMessage(
        NewMessage(current.value.id, selected.value.id, Trim(newMessage), TextMessage, false), now);
      newMessage := "";
      sending := false;
    }
  }
}
