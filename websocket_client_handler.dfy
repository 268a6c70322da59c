/**
 * The real-time gateway's event hooks: channel-subscription authorization
 * (`OnSubscribe`), the RPC dispatch table (`OnRPC`) and the fixed answers of
 * every other hook. Collaborators the handlers call but that are not part of
 * this model (the membership query, the four game handlers, JSON encoding)
 * are function-valued fields of `APIServer`; what the handlers do with them
 * (which lookups and calls they make, what they log) is returned as a trace
 * beside the reply.
 */
module WebsocketClientHandler {
  import opened Results
  import opened Strings
  import opened Strconv

  type Bytes = seq<bv8>

  /** Errors a hook can return to the transport. */
  datatype Error =
    | ErrorPermissionDenied
    | ErrorBadRequest
    | ErrorInternal
    | ErrorMethodNotFound
      /** Any other error, as a game handler may return it. */
    | OtherError(code: nat, message: string)

  /** A connection; the transport fixes its user ID at authentication. */
  datatype Client = Client(userId: string)

  /** The server's collaborators, each of which may fail. */
  datatype APIServer<!R> = APIServer(
    isGameMember: (Int64, Int64) -> Result<bool, string>,
    findGame: (Client, Bytes) -> Result<R, Error>,
    createGame: (Client, Bytes) -> Result<R, Error>,
    joinGame: (Client, Bytes) -> Result<R, Error>,
    leftGame: (Client, Bytes) -> Result<R, Error>,
    marshal: R -> Result<Bytes, string>)

  // ---------------------------------------------------------------------------
  // Subscribe
  // ---------------------------------------------------------------------------

  const UserPrefix: string := "user_"
  const GamePrefix: string := "game_"

  /**
   * What a subscribe attempt returns: `err == None` allows it (the reply is
   * always the empty `SubscribeReply`), and `lookups` lists the
   * `(gameID, userID)` pairs the membership query was asked.
   */
  datatype SubscribeOutcome = SubscribeOutcome(err: Option<Error>, lookups: seq<(Int64, Int64)>)

  function Allowed(): SubscribeOutcome { SubscribeOutcome(None, []) }

  function Refused(e: Error): SubscribeOutcome { SubscribeOutcome(Some(e), []) }

  /** The membership answer turned into a subscribe outcome. */
  function MembershipOutcome(answer: Result<bool, string>, gameId: Int64, userId: Int64): SubscribeOutcome
  {
    match answer
    case Err(_) => SubscribeOutcome(Some(ErrorInternal), [(gameId, userId)])
    case Ok(isMember) =>
      SubscribeOutcome(if isMember then None else Some(ErrorPermissionDenied), [(gameId, userId)])
  }

  function OnSubscribe<R>(app: APIServer<R>, c: Client, channel: string): (r: SubscribeOutcome)
    // A private channel is allowed exactly when its name is "user_" + the
    // subscriber's ID, as strings: no numeric normalisation, no lookup.
    ensures HasPrefix(channel, UserPrefix) ==>
      && r.lookups == []
      && (r.err == None <==> channel[|UserPrefix|..] == c.userId)
      && (r.err != None ==> r.err == Some(ErrorPermissionDenied))
    // A game channel whose ID, or whose subscriber's ID, is not an int64 is a
    // bad request and the membership query is not asked.
    ensures HasPrefix(channel, GamePrefix) &&
            (ParseInt(channel[|GamePrefix|..]).None? || ParseInt(c.userId).None?) ==>
      r == Refused(ErrorBadRequest)
    // Otherwise the query is asked once, for exactly these IDs, and decides.
    ensures HasPrefix(channel, GamePrefix) &&
            ParseInt(channel[|GamePrefix|..]).Some? && ParseInt(c.userId).Some? ==>
      var gameId, userId := ParseInt(channel[|GamePrefix|..]).value, ParseInt(c.userId).value;
      && r.lookups == [(gameId, userId)]
      && (r.err == Some(ErrorInternal) <==> app.isGameMember(gameId, userId).Err?)
      && (r.err == Some(ErrorPermissionDenied) <==> app.isGameMember(gameId, userId) == Ok(false))
      && (r.err == None <==> app.isGameMember(gameId, userId) == Ok(true))
    // Every other channel is open.
    ensures !HasPrefix(channel, UserPrefix) && !HasPrefix(channel, GamePrefix) ==> r == Allowed()
  {
    if HasPrefix(channel, UserPrefix) && channel != UserPrefix + c.userId then
      Refused(ErrorPermissionDenied)
    else if HasPrefix(channel, GamePrefix) then
      match ParseInt(channel[5..])
      case None => Refused(ErrorBadRequest)
      case Some(gameId) =>
        match ParseInt(c.userId)
        case None => Refused(ErrorBadRequest)
        case Some(userId) => MembershipOutcome(app.isGameMember(gameId, userId), gameId, userId)
    else
      Allowed()
  }

  /** A channel name read as one of the namespaces its prefix selects. */
  datatype Channel =
    | UserChannel(owner: string)
    | GameChannel(game: string)
    | OpenChannel(name: string)

  function ChannelName(ch: Channel): string
  {
    match ch
    case UserChannel(owner) => UserPrefix + owner
    case GameChannel(game) => GamePrefix + game
    case OpenChannel(name) => name
  }

  /** An open channel's name must not carry a reserved prefix. */
  predicate WellFormedChannel(ch: Channel)
  {
    ch.OpenChannel? ==> !HasPrefix(ch.name, UserPrefix) && !HasPrefix(ch.name, GamePrefix)
  }

  function ParseChannel(name: string): (ch: Channel)
    ensures WellFormedChannel(ch) && ChannelName(ch) == name
  {
    if HasPrefix(name, UserPrefix) then
      assert UserPrefix + name[5..] == name;
      UserChannel(name[5..])
    else if HasPrefix(name, GamePrefix) then
      assert GamePrefix + name[5..] == name;
      GameChannel(name[5..])
    else OpenChannel(name)
  }

  lemma ParseChannelName(ch: Channel)
    requires WellFormedChannel(ch)
    ensures ParseChannel(ChannelName(ch)) == ch
  {
    match ch
    case UserChannel(owner) =>
      assert ChannelName(ch)[..5] == UserPrefix && ChannelName(ch)[5..] == owner;
    case GameChannel(game) =>
      assert ChannelName(ch)[..5] == GamePrefix && ChannelName(ch)[5..] == game;
    case OpenChannel(_) =>
  }

  /** The authorization policy as a match over the namespaces. */
  function Policy(ch: Channel, userId: string, isGameMember: (Int64, Int64) -> Result<bool, string>): SubscribeOutcome
  {
    match ch
    case UserChannel(owner) =>
      if owner == userId then Allowed() else Refused(ErrorPermissionDenied)
    case GameChannel(game) =>
      if ParseInt(game).None? || ParseInt(userId).None? then Refused(ErrorBadRequest)
      else
        var gameId, uid := ParseInt(game).value, ParseInt(userId).value;
        MembershipOutcome(isGameMember(gameId, uid), gameId, uid)
    case OpenChannel(_) => Allowed()
  }

  /** The prefix tests of `OnSubscribe` implement the namespace policy. */
  lemma OnSubscribeFollowsPolicy<R>(app: APIServer<R>, c: Client, channel: string)
    ensures OnSubscribe(app, c, channel) == Policy(ParseChannel(channel), c.userId, app.isGameMember)
  {
    if HasPrefix(channel, UserPrefix) {
      assert channel == UserPrefix + c.userId <==> channel[5..] == c.userId by {
        assert channel == UserPrefix + channel[5..];
      }
    }
  }

  /**
   * The decision depends on the membership query only at the pairs it asked:
   * two servers that answer those alike decide alike.
   */
  lemma SubscribeDependsOnlyOnLookups<R>(app1: APIServer<R>, app2: APIServer<R>, c: Client, channel: string)
    requires forall q :: q in OnSubscribe(app1, c, channel).lookups ==>
      app1.isGameMember(q.0, q.1) == app2.isGameMember(q.0, q.1)
    ensures OnSubscribe(app1, c, channel) == OnSubscribe(app2, c, channel)
  {
  }

  // ---------------------------------------------------------------------------
  // RPC
  // ---------------------------------------------------------------------------

  datatype RpcMethod = FindGame | CreateGame | JoinGame | LeftGame

  function MethodName(m: RpcMethod): string
  {
    match m
    case FindGame => "find_game"
    case CreateGame => "create_game"
    case JoinGame => "join_game"
    case LeftGame => "left_game"
  }

  /** The dispatch table: exactly the four method names, case-sensitively. */
  function LookupMethod(name: string): (r: Option<RpcMethod>)
    ensures r.Some? ==> MethodName(r.value) == name
    ensures r.None? <==> forall m: RpcMethod :: MethodName(m) != name
  {
    if name == "find_game" then Some(FindGame)
    else if name == "create_game" then Some(CreateGame)
    else if name == "join_game" then Some(JoinGame)
    else if name == "left_game" then Some(LeftGame)
    else None
  }

  lemma LookupMethodName(m: RpcMethod)
    ensures LookupMethod(MethodName(m)) == Some(m)
  {
  }

  function Handler<R>(app: APIServer<R>, m: RpcMethod): (Client, Bytes) -> Result<R, Error>
  {
    match m
    case FindGame => app.findGame
    case CreateGame => app.createGame
    case JoinGame => app.joinGame
    case LeftGame => app.leftGame
  }

  /** One call of the server's error logger. */
  datatype LogRecord = LoggedHandlerError(err: Error) | LoggedMarshalError(reason: string)

  /**
   * What an RPC returns: the reply data and error, the handler calls made
   * (method and payload) and the records logged.
   */
  datatype RpcOutcome = RpcOutcome(data: Bytes, err: Option<Error>,
                                   calls: seq<(RpcMethod, Bytes)>, log: seq<LogRecord>)

  function OnRPC<R>(app: APIServer<R>, c: Client, name: string, data: Bytes): (r: RpcOutcome)
    // An unknown method: MethodNotFound, no handler call, nothing logged.
    ensures LookupMethod(name).None? ==> r == RpcOutcome([], Some(ErrorMethodNotFound), [], [])
    // A known method calls exactly its own handler, once, with the payload.
    ensures LookupMethod(name).Some? ==>
      var m := LookupMethod(name).value;
      var answer := Handler(app, m)(c, data);
      && r.calls == [(m, data)]
      // A handler error is logged once and returned unchanged.
      && (answer.Err? ==> r == RpcOutcome([], Some(answer.error), r.calls, [LoggedHandlerError(answer.error)]))
      // An encoding failure is logged once and becomes Internal.
      && (answer.Ok? && app.marshal(answer.value).Err? ==>
            r == RpcOutcome([], Some(ErrorInternal), r.calls, [LoggedMarshalError(app.marshal(answer.value).error)]))
      // Success logs nothing and replies with the encoded result.
      && (answer.Ok? && app.marshal(answer.value).Ok? ==>
            r == RpcOutcome(app.marshal(answer.value).value, None, r.calls, []))
  {
    match LookupMethod(name)
    case None => RpcOutcome([], Some(ErrorMethodNotFound), [], [])
    case Some(m) =>
      var calls := [(m, data)];
      match Handler(app, m)(c, data)
      case Err(e) => RpcOutcome([], Some(e), calls, [LoggedHandlerError(e)])
      case Ok(response) =>
        match app.marshal(response)
        case Err(reason) => RpcOutcome([], Some(ErrorInternal), calls, [LoggedMarshalError(reason)])
        case Ok(bytes) => RpcOutcome(bytes, None, calls, [])
  }

  /**
   * Logging happens at most once, and exactly when a known method fails:
   * client mistakes (unknown methods) are never logged, server faults always.
   */
  lemma RpcLogsExactlyServerFaults<R>(app: APIServer<R>, c: Client, name: string, data: Bytes)
    ensures var r := OnRPC(app, c, name, data);
      && |r.log| <= 1 && |r.calls| <= 1
      && (|r.log| == 1 <==> |r.calls| == 1 && r.err.Some?)
      && (r.err.None? ==> |r.calls| == 1)
      && (r.err.Some? ==> r.data == [])
  {
  }

  // ---------------------------------------------------------------------------
  // The event surface
  // ---------------------------------------------------------------------------

  /** Every event the transport delivers. */
  datatype Event =
    | Alive
    | Disconnect
    | Subscribe(channel: string)
    | Unsubscribe(channel: string)
    | Publish(channel: string, payload: Bytes)
    | Rpc(name: string, payload: Bytes)
    | Refresh
    | SubRefresh(channel: string)
    | Message(payload: Bytes)
    | Presence(channel: string)
    | PresenceStats(channel: string)
    | History(channel: string)

  /** What a hook answers. */
  datatype EventOutcome =
      /** The hook returns nothing. */
    | NoAnswer
      /** The hook returns its empty reply type with this error. */
    | EmptyReply(err: Option<Error>)
    | SubscribeAnswer(sub: SubscribeOutcome)
    | RpcAnswer(rpc: RpcOutcome)

  /** The capability table: one explicit answer per event kind. */
  function HandleEvent<R>(app: APIServer<R>, c: Client, e: Event): (r: EventOutcome)
    ensures r.NoAnswer? <==> e.Alive? || e.Disconnect? || e.Unsubscribe? || e.Message?
    ensures r == EmptyReply(None) <==>
      e.Publish? || e.Refresh? || e.SubRefresh? || e.Presence? || e.PresenceStats? || e.History?
    ensures !r.EmptyReply? || r.err.None?
    ensures e.Subscribe? ==> r == SubscribeAnswer(OnSubscribe(app, c, e.channel))
    ensures e.Rpc? ==> r == RpcAnswer(OnRPC(app, c, e.name, e.payload))
  {
    match e
    case Alive => NoAnswer
    case Disconnect => NoAnswer
    case Subscribe(channel) => SubscribeAnswer(OnSubscribe(app, c, channel))
    case Unsubscribe(_) => NoAnswer
    case Publish(_, _) => EmptyReply(None)
    case Rpc(name, payload) => RpcAnswer(OnRPC(app, c, name, payload))
    case Refresh => EmptyReply(None)
    case SubRefresh(_) => EmptyReply(None)
    case Message(_) => NoAnswer
    case Presence(_) => EmptyReply(None)
    case PresenceStats(_) => EmptyReply(None)
    case History(_) => EmptyReply(None)
  }

  /** Every hook other than subscribe and RPC ignores the server, the client and the event's contents. */
  lemma PassiveHooksIgnoreInputs<R>(app1: APIServer<R>, app2: APIServer<R>, c1: Client, c2: Client, e: Event)
    requires !e.Subscribe? && !e.Rpc?
    ensures HandleEvent(app1, c1, e) == HandleEvent(app2, c2, e)
    ensures HandleEvent(app1, c1, e) in {NoAnswer, EmptyReply(None)}
  {
  }

  // ---------------------------------------------------------------------------
  // Worked cases
  // ---------------------------------------------------------------------------

  lemma ParseSmallIds()
    ensures ParseInt("42") == Some(42)
    ensures ParseInt("042") == Some(42)
    ensures ParseInt("100") == Some(100)
    ensures ParseInt("abc") == None
  {
    assert DecimalValue("4") == 4;
    assert DecimalValue("42") == 42 by { assert "42"[..1] == "4"; }
    assert DecimalValue("042") == 42 by { assert "042"[..2] == "04"; assert "04"[..1] == "0"; }
    assert DecimalValue("100") == 100 by { assert "100"[..2] == "10"; assert "10"[..1] == "1"; }
    assert !IsDigit("abc"[0]);
  }

  /** User 42 may subscribe to its own channel and to no other user's. */
  lemma UserFortyTwoUserChannels<R>(app: APIServer<R>)
    ensures OnSubscribe(app, Client("42"), "user_42") == Allowed()
    ensures OnSubscribe(app, Client("42"), "user_7") == Refused(ErrorPermissionDenied)
    ensures OnSubscribe(app, Client("42"), "user_042") == Refused(ErrorPermissionDenied)
  {
    assert "user_42"[..5] == UserPrefix && "user_42"[5..] == "42";
    assert "user_7"[..5] == UserPrefix && "user_7"[5..] == "7";
    assert "user_042"[..5] == UserPrefix && "user_042"[5..] == "042";
  }

  /** User 42 may subscribe to game 100 only while a member of it. */
  lemma UserFortyTwoGameChannel<R>(app: APIServer<R>)
    ensures app.isGameMember(100, 42) == Ok(true) ==>
            OnSubscribe(app, Client("42"), "game_100") == SubscribeOutcome(None, [(100, 42)])
    ensures app.isGameMember(100, 42) == Ok(false) ==>
            OnSubscribe(app, Client("42"), "game_100") == SubscribeOutcome(Some(ErrorPermissionDenied), [(100, 42)])
  {
    assert Strconv.ParseInt("100") == Some(100) && Strconv.ParseInt("42") == Some(42) by { ParseSmallIds(); }
    assert "game_100"[..5] == GamePrefix && "game_100"[5..] == "100";
  }

  /** A game channel whose id is not a number is a bad request, whoever asks. */
  lemma GameChannelWithoutNumber<R>(app: APIServer<R>, c: Client)
    ensures OnSubscribe(app, c, "game_abc") == Refused(ErrorBadRequest)
  {
    assert Strconv.ParseInt("abc") == None by { ParseSmallIds(); }
    assert "game_abc"[..5] == GamePrefix && "game_abc"[5..] == "abc";
  }

  /** User 42 creates a game, then calls a method the table does not have. */
  lemma UserFortyTwoCallsRpcs<R>(app: APIServer<R>, response: R)
    requires app.createGame(Client("42"), []) == Ok(response) && app.marshal(response).Ok?
    ensures OnRPC(app, Client("42"), "create_game", []) ==
            RpcOutcome(app.marshal(response).value, None, [(CreateGame, [])], [])
    ensures OnRPC(app, Client("42"), "delete_game", []) == RpcOutcome([], Some(ErrorMethodNotFound), [], [])
  {
  }
}
