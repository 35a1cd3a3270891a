/**
 * The sockets of one API node (apps/api/src/realtime/realtime.service.ts): three hash indexes over
 * sockets that are themselves updated in place, and the delivery that reads them.
 */
module SocketRegistry {
  import opened Common

  type UserId = nat
  type ConvId = nat
  type ConnId = nat
  type Message = nat

  /** 4401. */
  const SESSION_ENDED_CLOSE_CODE := 4401

  // ---- the set-map helpers -------------------------------------------------------------------------

  function Get<V>(m: map<nat, set<V>>, key: nat): set<V> {
    if key in m then m[key] else {}
  }

  /** No key is kept for an empty set. */
  predicate NoEmptySets<V>(m: map<nat, set<V>>) {
    forall k | k in m :: m[k] != {}
  }

  /** `addToSetMap`. */
  function AddToSetMap<V>(m: map<nat, set<V>>, key: nat, value: V): (r: map<nat, set<V>>)
    ensures forall k :: Get(r, k) == if k == key then Get(m, k) + {value} else Get(m, k)
    ensures NoEmptySets(m) ==> NoEmptySets(r)
  {
    var r := m[key := Get(m, key) + {value}];
    assert value in r[key];
    r
  }

  /** `removeFromSetMap`. */
  function RemoveFromSetMap<V>(m: map<nat, set<V>>, key: nat, value: V): (r: map<nat, set<V>>)
    ensures forall k :: Get(r, k) == if k == key then Get(m, k) - {value} else Get(m, k)
    ensures NoEmptySets(m) ==> NoEmptySets(r)
  {
    if key !in m then m
    else if m[key] - {value} == {} then m - {key}
    else m[key := m[key] - {value}]
  }

  /** A set map without empty sets is told apart by its sets alone. */
  lemma SameSetsSameMap<V>(m: map<nat, set<V>>, n: map<nat, set<V>>)
    requires NoEmptySets(m) && NoEmptySets(n) && forall k :: Get(m, k) == Get(n, k)
    ensures m == n
  {
    forall k ensures k in m <==> k in n {
      assert Get(m, k) == Get(n, k);
    }
    forall k | k in m ensures m[k] == n[k] {
      assert Get(m, k) == Get(n, k);
    }
  }

  // ---- the indexes ---------------------------------------------------------------------------------

  /** What a registered socket carries; its conversations change while it is open. */
  datatype Profile = Profile(user: UserId, connection: Option<ConnId>, conversations: set<ConvId>)

  /** The three indexes, and every registered socket with what it carries. */
  datatype State<!S> = State(
    byUser: map<UserId, set<S>>,
    byConversation: map<ConvId, set<S>>,
    byConnection: map<ConnId, S>,
    profiles: map<S, Profile>)

  function Empty<S>(): State<S> {
    State(map[], map[], map[], map[])
  }

  datatype Channel = Conversation(conversation: ConvId) | User(user: UserId) | Connection(connection: ConnId) | Other

  predicate Hears(p: Profile, channel: Channel) {
    match channel
    case Conversation(c) => c in p.conversations
    case User(u) => p.user == u
    case Connection(k) => p.connection == Some(k)
    case Other => false
  }

  /** What looking at every registered socket would find. */
  function Scan<S>(s: State<S>, channel: Channel): set<S> {
    set x | x in s.profiles && Hears(s.profiles[x], channel)
  }

  /** What the indexes find. */
  function Lookup<S>(s: State<S>, channel: Channel): set<S> {
    match channel
    case Conversation(c) => Get(s.byConversation, c)
    case User(u) => Get(s.byUser, u)
    case Connection(k) => if k in s.byConnection then {s.byConnection[k]} else {}
    case Other => {}
  }

  ghost predicate Agrees<S>(s: State<S>) {
    && NoEmptySets(s.byUser)
    && NoEmptySets(s.byConversation)
    && forall channel :: Lookup(s, channel) == Scan(s, channel)
  }

  /** Puts a socket under every one of its conversations. */
  function AddAll<S>(m: map<ConvId, set<S>>, conversations: set<ConvId>, x: S): (r: map<ConvId, set<S>>)
    ensures forall c :: Get(r, c) == if c in conversations then Get(m, c) + {x} else Get(m, c)
    ensures NoEmptySets(m) ==> NoEmptySets(r)
  {
    map c | c in m.Keys + conversations :: if c in conversations then Get(m, c) + {x} else m[c]
  }

  function RemoveAll<S>(m: map<ConvId, set<S>>, conversations: set<ConvId>, x: S): (r: map<ConvId, set<S>>)
    ensures forall c :: Get(r, c) == if c in conversations then Get(m, c) - {x} else Get(m, c)
    ensures NoEmptySets(m) ==> NoEmptySets(r)
  {
    map c | c in m && !(c in conversations && m[c] - {x} == {}) :: if c in conversations then m[c] - {x} else m[c]
  }

  /** `register`. */
  function Registered<S>(s: State<S>, x: S, p: Profile): State<S> {
    State(AddToSetMap(s.byUser, p.user, x),
          AddAll(s.byConversation, p.conversations, x),
          if p.connection.Some? then s.byConnection[p.connection.value := x] else s.byConnection,
          s.profiles[x := p])
  }

  /** `unregister`. */
  function Unregistered<S>(s: State<S>, x: S): State<S> {
    if x !in s.profiles then s
    else
      var p := s.profiles[x];
      State(RemoveFromSetMap(s.byUser, p.user, x),
            RemoveAll(s.byConversation, p.conversations, x),
            if p.connection.Some? && p.connection.value in s.byConnection && s.byConnection[p.connection.value] == x
            then s.byConnection - {p.connection.value} else s.byConnection,
            s.profiles - {x})
  }

  function WithConversation(p: Profile, c: ConvId): Profile {
    p.(conversations := p.conversations + {c})
  }

  function WithoutConversation(p: Profile, c: ConvId): Profile {
    p.(conversations := p.conversations - {c})
  }

  /** One turn of the loop of `addConversationForUser`. */
  function Subscribed<S>(s: State<S>, x: S, c: ConvId): State<S>
    requires x in s.profiles
  {
    s.(byConversation := AddToSetMap(s.byConversation, c, x), profiles := s.profiles[x := WithConversation(s.profiles[x], c)])
  }

  function Unsubscribed<S>(s: State<S>, x: S, c: ConvId): State<S>
    requires x in s.profiles
  {
    s.(byConversation := RemoveFromSetMap(s.byConversation, c, x),
       profiles := s.profiles[x := WithoutConversation(s.profiles[x], c)])
  }

  /** A connection id names one socket. */
  predicate FreshConnection<S>(s: State<S>, p: Profile) {
    p.connection.Some? ==> forall x | x in s.profiles :: s.profiles[x].connection != p.connection
  }

  /** The registration is one the indexes can hold: nobody else has the connection id, and a socket that
   *  registers again is the same user's, with no conversation fewer and the connection it had. */
  predicate FitsIn<S>(s: State<S>, x: S, p: Profile) {
    && (p.connection.Some? ==> forall y | y in s.profiles && s.profiles[y].connection == p.connection :: y == x)
    && (x in s.profiles ==>
          && s.profiles[x].user == p.user && s.profiles[x].conversations <= p.conversations
          && (s.profiles[x].connection.Some? ==> s.profiles[x].connection == p.connection))
  }

  // ---- every change keeps them in agreement --------------------------------------------------------

  lemma RegisterLookup<S>(s: State<S>, x: S, p: Profile, channel: Channel)
    ensures Lookup(Registered(s, x, p), channel) ==
            if !Hears(p, channel) then Lookup(s, channel)
            else if channel.Connection? then {x} else Lookup(s, channel) + {x}
  {
  }

  lemma RegisterScan<S>(s: State<S>, x: S, p: Profile, channel: Channel)
    ensures Scan(Registered(s, x, p), channel) == Scan(s, channel) - {x} + if Hears(p, channel) then {x} else {}
  {
  }

  lemma FittingAgrees<S>(s: State<S>, x: S, p: Profile)
    requires Agrees(s) && FitsIn(s, x, p)
    ensures Agrees(Registered(s, x, p))
  {
    forall channel ensures Lookup(Registered(s, x, p), channel) == Scan(Registered(s, x, p), channel) {
      assert Lookup(s, channel) == Scan(s, channel);
      RegisterLookup(s, x, p, channel);
      RegisterScan(s, x, p, channel);
    }
  }

  /** What was found under a channel, and still is, has to hear it. */
  lemma StillHears<S>(s: State<S>, x: S, p: Profile, channel: Channel)
    requires Agrees(s) && Agrees(Registered(s, x, p)) && x in s.profiles && Hears(s.profiles[x], channel)
    ensures Hears(p, channel)
  {
    assert x in Scan(s, channel) && Lookup(s, channel) == Scan(s, channel);
    RegisterLookup(s, x, p, channel);
    RegisterScan(s, x, p, channel);
    assert Lookup(Registered(s, x, p), channel) == Scan(Registered(s, x, p), channel);
  }

  lemma ConnectionIsOwn<S>(s: State<S>, x: S, p: Profile, y: S)
    requires Agrees(Registered(s, x, p)) && p.connection.Some? && y in s.profiles && s.profiles[y].connection == p.connection
    ensures y == x
  {
    var channel := Connection(p.connection.value);
    RegisterLookup(s, x, p, channel);
    RegisterScan(s, x, p, channel);
    assert Lookup(Registered(s, x, p), channel) == Scan(Registered(s, x, p), channel);
    assert y in Scan(s, channel);
  }

  /** A registration leaves the indexes in agreement with a scan if and only if it fits. */
  lemma RegisterAgreesIff<S>(s: State<S>, x: S, p: Profile)
    requires Agrees(s)
    ensures Agrees(Registered(s, x, p)) <==> FitsIn(s, x, p)
  {
    if FitsIn(s, x, p) { FittingAgrees(s, x, p); }
    if Agrees(Registered(s, x, p)) {
      if p.connection.Some? {
        forall y | y in s.profiles && s.profiles[y].connection == p.connection ensures y == x {
          ConnectionIsOwn(s, x, p, y);
        }
      }
      if x in s.profiles {
        var q := s.profiles[x];
        StillHears(s, x, p, User(q.user));
        forall c | c in q.conversations ensures c in p.conversations { StillHears(s, x, p, Conversation(c)); }
        if q.connection.Some? { StillHears(s, x, p, Connection(q.connection.value)); }
      }
    }
  }

  lemma UnregisterAgrees<S>(s: State<S>, x: S)
    requires Agrees(s) && x in s.profiles
    ensures Agrees(Unregistered(s, x))
  {
    var t := Unregistered(s, x);
    forall channel ensures Lookup(t, channel) == Scan(t, channel) {
      assert Lookup(s, channel) == Scan(s, channel);
      assert Scan(t, channel) == Scan(s, channel) - {x};
      if x !in Scan(s, channel) {
        assert Lookup(t, channel) == Lookup(s, channel);
      }
    }
  }

  lemma SubscribeAgrees<S>(s: State<S>, x: S, c: ConvId)
    requires Agrees(s) && x in s.profiles
    ensures Agrees(Subscribed(s, x, c))
  {
    var t := Subscribed(s, x, c);
    forall channel ensures Lookup(t, channel) == Scan(t, channel) {
      assert Lookup(s, channel) == Scan(s, channel);
      assert Scan(t, channel) == if channel == Conversation(c) then Scan(s, channel) + {x} else Scan(s, channel);
    }
  }

  lemma UnsubscribeAgrees<S>(s: State<S>, x: S, c: ConvId)
    requires Agrees(s) && x in s.profiles
    ensures Agrees(Unsubscribed(s, x, c))
  {
    var t := Unsubscribed(s, x, c);
    forall channel ensures Lookup(t, channel) == Scan(t, channel) {
      assert Lookup(s, channel) == Scan(s, channel);
      assert Scan(t, channel) == if channel == Conversation(c) then Scan(s, channel) - {x} else Scan(s, channel);
    }
  }

  /** The indexes are determined by the sockets: two agreeing registries of the same sockets are equal. */
  lemma SameSocketsSameIndexes<S>(s: State<S>, t: State<S>)
    requires Agrees(s) && Agrees(t) && s.profiles == t.profiles
    ensures s == t
  {
    forall k ensures Get(s.byUser, k) == Get(t.byUser, k) && Get(s.byConversation, k) == Get(t.byConversation, k) {
      assert Lookup(s, User(k)) == Scan(s, User(k)) == Scan(t, User(k)) == Lookup(t, User(k));
      assert Lookup(s, Conversation(k)) == Scan(s, Conversation(k)) == Scan(t, Conversation(k)) == Lookup(t, Conversation(k));
    }
    SameSetsSameMap(s.byUser, t.byUser);
    SameSetsSameMap(s.byConversation, t.byConversation);
    forall k: nat
      ensures k in s.byConnection <==> k in t.byConnection
      ensures k in s.byConnection ==> s.byConnection[k] == t.byConnection[k]
    {
      assert Lookup(s, Connection(k)) == Scan(s, Connection(k)) == Scan(t, Connection(k)) == Lookup(t, Connection(k));
      if k in s.byConnection { assert s.byConnection[k] in Lookup(s, Connection(k)); }
      if k in t.byConnection { assert t.byConnection[k] in Lookup(t, Connection(k)); }
    }
  }

  // ---- one conversation, all sockets of a user -----------------------------------------------------

  /** Some sockets, each with its profile changed. */
  function Changed<S>(profiles: map<S, Profile>, xs: set<S>, f: Profile -> Profile): map<S, Profile> {
    map x | x in profiles :: if x in xs then f(profiles[x]) else profiles[x]
  }

  function Adding(c: ConvId): Profile -> Profile {
    (p: Profile) => WithConversation(p, c)
  }

  function Removing(c: ConvId): Profile -> Profile {
    (p: Profile) => WithoutConversation(p, c)
  }

  /** `addConversationForUser`. */
  function AddedForUser<S>(s: State<S>, u: UserId, c: ConvId): State<S> {
    var xs := Get(s.byUser, u);
    s.(byConversation := if xs == {} then s.byConversation else s.byConversation[c := Get(s.byConversation, c) + xs],
       profiles := Changed(s.profiles, xs, Adding(c)))
  }

  /** `removeConversationForUser`. */
  function RemovedForUser<S>(s: State<S>, u: UserId, c: ConvId): State<S> {
    var xs := Get(s.byUser, u);
    var left := Get(s.byConversation, c) - xs;
    s.(byConversation := if left == {} then s.byConversation - {c} else s.byConversation[c := left],
       profiles := Changed(s.profiles, xs, Removing(c)))
  }

  lemma AddForUserAgrees<S>(s: State<S>, u: UserId, c: ConvId)
    requires Agrees(s)
    ensures Agrees(AddedForUser(s, u, c))
  {
    var t := AddedForUser(s, u, c);
    var xs := Get(s.byUser, u);
    assert Lookup(s, User(u)) == Scan(s, User(u));
    forall channel ensures Lookup(t, channel) == Scan(t, channel) {
      assert Lookup(s, channel) == Scan(s, channel);
      assert Scan(t, channel) == if channel == Conversation(c) then Scan(s, channel) + xs else Scan(s, channel);
    }
  }

  lemma RemoveForUserAgrees<S>(s: State<S>, u: UserId, c: ConvId)
    requires Agrees(s)
    ensures Agrees(RemovedForUser(s, u, c))
  {
    var t := RemovedForUser(s, u, c);
    var xs := Get(s.byUser, u);
    assert Lookup(s, User(u)) == Scan(s, User(u));
    forall channel ensures Lookup(t, channel) == Scan(t, channel) {
      assert Lookup(s, channel) == Scan(s, channel);
      assert Scan(t, channel) == if channel == Conversation(c) then Scan(s, channel) - xs else Scan(s, channel);
    }
  }

  // ---- runs ----------------------------------------------------------------------------------------

  type SocketId = nat

  datatype Event =
    | Register(x: SocketId, profile: Profile)
    | Unregister(x: SocketId)
    | AddForUser(user: UserId, conversation: ConvId)
    | RemoveForUser(user: UserId, conversation: ConvId)

  /** A registration that does not fit is left out; `RegisterAgreesIff` says what it would break. */
  function Step(s: State<SocketId>, e: Event): State<SocketId> {
    match e
    case Register(x, p) =>
      if FitsIn(s, x, p) then Registered(s, x, p) else s
    case Unregister(x) => Unregistered(s, x)
    case AddForUser(u, c) => AddedForUser(s, u, c)
    case RemoveForUser(u, c) => RemovedForUser(s, u, c)
  }

  function Run(events: seq<Event>): State<SocketId> {
    if events == [] then Empty() else Step(Run(events[..|events| - 1]), events[|events| - 1])
  }

  lemma StepAgrees(s: State<SocketId>, e: Event)
    requires Agrees(s)
    ensures Agrees(Step(s, e))
  {
    match e
    case Register(x, p) => RegisterAgreesIff(s, x, p);
    case Unregister(x) => if x in s.profiles { UnregisterAgrees(s, x); }
    case AddForUser(u, c) => AddForUserAgrees(s, u, c);
    case RemoveForUser(u, c) => RemoveForUserAgrees(s, u, c);
  }

  /** In every reachable registry each index finds exactly the sockets that a scan would, and keeps no
   *  key for nothing. */
  lemma {:induction false} IndexesAgreeWithScan(events: seq<Event>)
    ensures Agrees(Run(events))
  {
    if events == [] {
      var s := Empty<SocketId>();
      forall channel ensures Lookup(s, channel) == Scan(s, channel) {
      }
    } else {
      IndexesAgreeWithScan(events[..|events| - 1]);
      StepAgrees(Run(events[..|events| - 1]), events[|events| - 1]);
    }
  }

  /** A socket that is gone is in no index. */
  lemma GoneWithoutTrace(events: seq<Event>, x: SocketId, channel: Channel)
    ensures x !in Lookup(Run(events + [Unregister(x)]), channel)
  {
    IndexesAgreeWithScan(events + [Unregister(x)]);
    assert (events + [Unregister(x)])[..|events|] == events;
    var s := Run(events + [Unregister(x)]);
    assert Lookup(s, channel) == Scan(s, channel);
  }

  /** Unregistering a socket gives back the very registry there was before it registered. */
  lemma UnregisterUndoesRegister<S>(s: State<S>, x: S, p: Profile)
    requires Agrees(s) && x !in s.profiles && FreshConnection(s, p)
    ensures Unregistered(Registered(s, x, p), x) == s
  {
    FittingAgrees(s, x, p);
    UnregisterAgrees(Registered(s, x, p), x);
    assert Registered(s, x, p).profiles - {x} == s.profiles;
    SameSocketsSameIndexes(Unregistered(Registered(s, x, p), x), s);
  }

  /** A member removed from a conversation no longer hears it, on any socket; everyone else hears exactly
   *  what they did. */
  lemma RemovedHearsNothing(events: seq<Event>, u: UserId, c: ConvId, x: SocketId, channel: Channel)
    requires x in Run(events).profiles
    ensures var s := Run(events);
            x in Lookup(RemovedForUser(s, u, c), channel) <==>
              x in Lookup(s, channel) && !(channel == Conversation(c) && s.profiles[x].user == u)
  {
    var s := Run(events);
    IndexesAgreeWithScan(events);
    RemoveForUserAgrees(s, u, c);
    assert Lookup(s, channel) == Scan(s, channel);
    assert Lookup(s, User(u)) == Scan(s, User(u));
    assert Lookup(RemovedForUser(s, u, c), channel) == Scan(RemovedForUser(s, u, c), channel);
  }

  // ---- the registry itself -------------------------------------------------------------------------

  /** A socket; `sent` and `closeCode` are what its client sees of it. */
  class Socket {
    var userId: Option<UserId>
    var connectionId: Option<ConnId>
    var conversationIds: set<ConvId>
    var open: bool
    var sent: seq<Message>
    var closeCode: Option<int>

    constructor (connectionId: Option<ConnId>)
      ensures userId == None && this.connectionId == connectionId && conversationIds == {}
      ensures open && sent == [] && closeCode == None
    {
      userId, conversationIds, open, sent, closeCode := None, {}, true, [], None;
      this.connectionId := connectionId;
    }

    predicate Carries(p: Profile)
      reads `userId, `connectionId, `conversationIds
    {
      userId == Some(p.user) && connectionId == p.connection && conversationIds == p.conversations
    }

    method Send(message: Message)
      modifies this`sent
      ensures sent == old(sent) + [message]
    {
      sent := sent + [message];
    }

    method Close(code: int)
      modifies this`open, this`closeCode
      ensures !open && closeCode == Some(code)
    {
      open, closeCode := false, Some(code);
    }
  }

  class Registry {
    var byUser: map<UserId, set<Socket>>
    var byConversation: map<ConvId, set<Socket>>
    var byConnection: map<ConnId, Socket>
    /** What each registered socket carries: kept equal to the sockets' own fields. */
    ghost var profiles: map<Socket, Profile>

    ghost function View(): State<Socket>
      reads this
    {
      State(byUser, byConversation, byConnection, profiles)
    }

    ghost predicate Valid()
      reads this, profiles.Keys
    {
      Agrees(View()) && forall x | x in profiles :: x.Carries(profiles[x])
    }

    constructor ()
      ensures Valid() && View() == Empty()
    {
      byUser, byConversation, byConnection, profiles := map[], map[], map[], map[];
    }

    /** The loop of `register`. */
    method IndexConversations(client: Socket, conversationIds: set<ConvId>)
      modifies this`byConversation
      ensures byConversation == AddAll(old(byConversation), conversationIds, client)
    {
      var rest := conversationIds;
      while rest != {}
        invariant rest <= conversationIds
        invariant byConversation == AddAll(old(byConversation), conversationIds - rest, client)
        decreases |rest|
      {
        var c :| c in rest;
        ghost var before, done := rest, conversationIds - rest;
        AddOneMore(old(byConversation), done, client, c);
        rest := rest - {c};
        byConversation := AddToSetMap(byConversation, c, client);
        OneMoreDone(conversationIds, before, c);
      }
      assert conversationIds - rest == conversationIds;
    }

    /** The loop of `unregister`. */
    method ForgetConversations(client: Socket, conversationIds: set<ConvId>)
      modifies this`byConversation
      ensures byConversation == RemoveAll(old(byConversation), conversationIds, client)
    {
      var rest := conversationIds;
      RemoveNone(byConversation, client);
      while rest != {}
        invariant rest <= conversationIds
        invariant byConversation == RemoveAll(old(byConversation), conversationIds - rest, client)
        decreases |rest|
      {
        var c :| c in rest;
        ghost var before, done := rest, conversationIds - rest;
        RemoveOneMore(old(byConversation), done, client, c);
        rest := rest - {c};
        byConversation := RemoveFromSetMap(byConversation, c, client);
        OneMoreDone(conversationIds, before, c);
      }
      assert conversationIds - rest == conversationIds;
    }

    /** `register`, whoever calls it; the indexes stay right exactly when the registration fits, as it does
     *  for a new socket with a connection id of its own. */
    method Register(client: Socket, userId: UserId, conversationIds: set<ConvId>)
      requires Valid()
      modifies this, client`userId, client`conversationIds
      ensures View() == Registered(old(View()), client, Profile(userId, client.connectionId, conversationIds))
      ensures forall x | x in profiles :: x.Carries(profiles[x])
      ensures Valid() <==> FitsIn(old(View()), client, Profile(userId, client.connectionId, conversationIds))
      ensures profiles == old(profiles)[client := Profile(userId, client.connectionId, conversationIds)]
      ensures client.userId == Some(userId) && client.conversationIds == conversationIds
    {
      ghost var p := Profile(userId, client.connectionId, conversationIds);
      RegisterAgreesIff(View(), client, p);
      client.userId := Some(userId);
      client.conversationIds := conversationIds;
      byUser := AddToSetMap(byUser, userId, client);
      if client.connectionId.Some? { byConnection := byConnection[client.connectionId.value := client]; }
      IndexConversations(client, client.conversationIds);
      profiles := profiles[client := p];
      assert View() == old(Registered(View(), client, p));
    }

    /** `unregister`, of any socket; one that is not registered, or no longer, is in no index. */
    method Unregister(client: Socket)
      requires Valid()
      modifies this
      ensures Valid() && View() == Unregistered(old(View()), client)
      ensures forall channel :: client !in Lookup(View(), channel)
      ensures profiles == old(profiles) - {client}
    {
      if client in profiles { UnregisterAgrees(View(), client); } else { AbsentIsNowhere(View(), client); }
      if client.userId.Some? {
        byUser := RemoveFromSetMap(byUser, client.userId.value, client);
      }
      if client.connectionId.Some? {
        var k := client.connectionId.value;
        if k in byConnection && byConnection[k] == client {
          assert client in Lookup(old(View()), Connection(k));
          byConnection := byConnection - {k};
        }
      }
      if client.userId.Some? {
        ForgetConversations(client, client.conversationIds);
      }
      profiles := profiles - {client};
      assert View() == old(Unregistered(View(), client));
      assert forall channel :: Lookup(View(), channel) == Scan(View(), channel);
    }

    method Subscribe(s: Socket, conversation: ConvId)
      requires Valid() && s in profiles
      modifies this`byConversation, this`profiles, s`conversationIds
      ensures Valid() && View() == Subscribed(old(View()), s, conversation)
    {
      SubscribeAgrees(View(), s, conversation);
      s.conversationIds := s.conversationIds + {conversation};
      byConversation := AddToSetMap(byConversation, conversation, s);
      profiles := profiles[s := WithConversation(profiles[s], conversation)];
    }

    method Unsubscribe(s: Socket, conversation: ConvId)
      requires Valid() && s in profiles
      modifies this`byConversation, this`profiles, s`conversationIds
      ensures Valid() && View() == Unsubscribed(old(View()), s, conversation)
    {
      UnsubscribeAgrees(View(), s, conversation);
      s.conversationIds := s.conversationIds - {conversation};
      byConversation := RemoveFromSetMap(byConversation, conversation, s);
      profiles := profiles[s := WithoutConversation(profiles[s], conversation)];
    }

    /** The loop of `addConversationForUser`. */
    method SubscribeAll(sockets: set<Socket>, conversation: ConvId)
      requires Valid() && sockets <= profiles.Keys
      modifies this`byConversation, this`profiles, profiles.Keys`conversationIds
      ensures Valid() && profiles == Changed(old(profiles), sockets, Adding(conversation))
    {
      var rest := sockets;
      ChangedNone(profiles, Adding(conversation));
      while rest != {}
        invariant rest <= sockets && Valid()
        invariant profiles == Changed(old(profiles), sockets - rest, Adding(conversation))
        decreases |rest|
      {
        var s :| s in rest;
        ghost var before, done := rest, sockets - rest;
        ChangedOneMore(old(profiles), done, Adding(conversation), s);
        rest := rest - {s};
        Subscribe(s, conversation);
        OneMoreDone(sockets, before, s);
      }
      assert sockets - rest == sockets;
    }

    method UnsubscribeAll(sockets: set<Socket>, conversation: ConvId)
      requires Valid() && sockets <= profiles.Keys
      modifies this`byConversation, this`profiles, profiles.Keys`conversationIds
      ensures Valid() && profiles == Changed(old(profiles), sockets, Removing(conversation))
    {
      var rest := sockets;
      ChangedNone(profiles, Removing(conversation));
      while rest != {}
        invariant rest <= sockets && Valid()
        invariant profiles == Changed(old(profiles), sockets - rest, Removing(conversation))
        decreases |rest|
      {
        var s :| s in rest;
        ghost var before, done := rest, sockets - rest;
        ChangedOneMore(old(profiles), done, Removing(conversation), s);
        rest := rest - {s};
        Unsubscribe(s, conversation);
        OneMoreDone(sockets, before, s);
      }
      assert sockets - rest == sockets;
    }

    /** Every open socket of the user hears of one more conversation, and nothing else changes. */
    method AddConversationForUser(userId: UserId, conversation: ConvId)
      requires Valid()
      modifies this`byConversation, this`profiles, profiles.Keys`conversationIds
      ensures Valid() && View() == AddedForUser(old(View()), userId, conversation)
      ensures forall x | x in profiles && profiles[x].user == userId :: x in Scan(View(), Conversation(conversation))
      ensures forall x | x in profiles && profiles[x].user != userId :: old(profiles)[x] == profiles[x]
      ensures profiles.Keys == old(profiles.Keys) && forall x | x in profiles && profiles[x].user == userId ::
                profiles[x] == old(profiles)[x].(conversations := old(profiles)[x].conversations + {conversation})
    {
      ghost var before := View();
      assert Lookup(before, User(userId)) == Scan(before, User(userId));
      SubscribeAll(Get(byUser, userId), conversation);
      AddForUserAgrees(before, userId, conversation);
      SameSocketsSameIndexes(View(), AddedForUser(before, userId, conversation));
    }

    /** The mirror: none of the user's sockets hears of the conversation any more. */
    method RemoveConversationForUser(userId: UserId, conversation: ConvId)
      requires Valid()
      modifies this`byConversation, this`profiles, profiles.Keys`conversationIds
      ensures Valid() && View() == RemovedForUser(old(View()), userId, conversation)
      ensures forall x | x in profiles && profiles[x].user == userId :: x !in Scan(View(), Conversation(conversation))
      ensures forall x | x in profiles && profiles[x].user != userId :: old(profiles)[x] == profiles[x]
      ensures profiles.Keys == old(profiles.Keys) && forall x | x in profiles && profiles[x].user == userId ::
                profiles[x] == old(profiles)[x].(conversations := old(profiles)[x].conversations - {conversation})
    {
      ghost var before := View();
      assert Lookup(before, User(userId)) == Scan(before, User(userId));
      UnsubscribeAll(Get(byUser, userId), conversation);
      RemoveForUserAgrees(before, userId, conversation);
      SameSocketsSameIndexes(View(), RemovedForUser(before, userId, conversation));
    }

    /** `deliverLocally`: the open sockets a scan would find get the message, once each, and no other
     *  socket does; `session.ended` on a user's channel then closes that user's sockets. */
    method DeliverLocally(channel: Channel, message: Message, endsSession: bool)
      requires Valid()
      modifies profiles.Keys`sent, profiles.Keys`open, profiles.Keys`closeCode
      ensures Valid()
      ensures forall x | x in profiles ::
                && x.sent == old(x.sent) + (if x in Scan(View(), channel) && old(x.open) then [message] else [])
                && x.open == (old(x.open) && !(endsSession && channel.User? && x in Scan(View(), channel)))
      ensures forall x | x in profiles ::
                x.closeCode == if endsSession && channel.User? && x in Scan(View(), channel) then Some(4401) else old(x.closeCode)
    {
      assert Lookup(View(), channel) == Scan(View(), channel);
      if channel.Connection? {
        if channel.connection in byConnection {
          var client := byConnection[channel.connection];
          assert client in Lookup(View(), channel);
          if client.open { client.Send(message); }
        }
        return;
      }
      var ends := channel.User? && endsSession;
      var targets :=
        if channel.Conversation? then Get(byConversation, channel.conversation)
        else if channel.User? then Get(byUser, channel.user)
        else {};
      DeliverTo(targets, message, ends);
    }

    method DeliverTo(targets: set<Socket>, message: Message, ends: bool)
      modifies targets`sent, targets`open, targets`closeCode
      ensures forall x | x in targets ::
                && x.sent == old(x.sent) + (if old(x.open) then [message] else [])
                && x.open == (old(x.open) && !ends)
      ensures forall x | x in targets :: x.closeCode == if ends then Some(4401) else old(x.closeCode)
    {
      var rest := targets;
      while rest != {}
        invariant rest <= targets
        invariant forall x | x in targets ::
          && x.sent == old(x.sent) + (if x !in rest && old(x.open) then [message] else [])
          && x.open == (old(x.open) && !(ends && x !in rest))
          && x.closeCode == if ends && x !in rest then Some(SESSION_ENDED_CLOSE_CODE) else old(x.closeCode)
        decreases |rest|
      {
        var client :| client in rest;
        rest := rest - {client};
        if client.open { client.Send(message); }
        if ends { client.Close(SESSION_ENDED_CLOSE_CODE); }
      }
    }
  }

  /** Taking a socket that is not registered out of the indexes changes nothing. */
  lemma AbsentIsNowhere<S>(s: State<S>, x: S)
    requires Agrees(s) && x !in s.profiles
    ensures forall u :: RemoveFromSetMap(s.byUser, u, x) == s.byUser
    ensures forall conversations :: RemoveAll(s.byConversation, conversations, x) == s.byConversation
    ensures forall channel :: x !in Lookup(s, channel)
  {
    forall channel ensures x !in Lookup(s, channel) {
      assert Lookup(s, channel) == Scan(s, channel);
    }
    forall k ensures x !in Get(s.byUser, k) && x !in Get(s.byConversation, k) {
      assert x !in Lookup(s, User(k)) && x !in Lookup(s, Conversation(k));
    }
    forall u ensures RemoveFromSetMap(s.byUser, u, x) == s.byUser {
      SameSetsSameMap(RemoveFromSetMap(s.byUser, u, x), s.byUser);
    }
    forall conversations ensures RemoveAll(s.byConversation, conversations, x) == s.byConversation {
      SameSetsSameMap(RemoveAll(s.byConversation, conversations, x), s.byConversation);
    }
  }

  lemma OneMoreDone<T>(all: set<T>, rest: set<T>, x: T)
    requires rest <= all && x in rest
    ensures all - (rest - {x}) == all - rest + {x}
  {
  }

  lemma ChangedNone<S>(profiles: map<S, Profile>, f: Profile -> Profile)
    ensures Changed(profiles, {}, f) == profiles
  {
  }

  lemma ChangedOneMore<S>(profiles: map<S, Profile>, done: set<S>, f: Profile -> Profile, x: S)
    requires x in profiles && x !in done
    ensures Changed(profiles, done + {x}, f) == Changed(profiles, done, f)[x := f(profiles[x])]
  {
  }

  lemma AddOneMore<S>(m: map<ConvId, set<S>>, done: set<ConvId>, x: S, c: ConvId)
    ensures AddToSetMap(AddAll(m, done, x), c, x) == AddAll(m, done + {c}, x)
  {
  }

  lemma RemoveNone<S>(m: map<ConvId, set<S>>, x: S)
    ensures RemoveAll(m, {}, x) == m
  {
  }

  lemma RemoveOneMore<S>(m: map<ConvId, set<S>>, done: set<ConvId>, x: S, c: ConvId)
    requires c !in done
    ensures RemoveFromSetMap(RemoveAll(m, done, x), c, x) == RemoveAll(m, done + {c}, x)
  {
    var l, r := RemoveFromSetMap(RemoveAll(m, done, x), c, x), RemoveAll(m, done + {c}, x);
    forall k ensures k in l <==> k in r {
    }
  }
}
