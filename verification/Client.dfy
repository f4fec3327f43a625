/**
 The command-line client (client_cli/src/main.rs over client_core/src/client.rs): one request at a
 time, a menu that depends on whether the client believes to be logged in, and the proof that this
 belief agrees with the server.
 */
module Client {
  import opened Wrappers
  import opened MachineInts
  import opened ServerProtocol
  import opened Machine
  import opened Exchange

  /** What the user picks, with what the prompts return; Abandoned stands for a cancelled prompt or a local error. */
  datatype Choice =
    | PickLogin(username: Text, password: Text)
    | PickSignup(username: Text, password: Text)
    | PickLogout
    | CheckTokens
    | BuyTokens(amount: u64)
    | StampFile(hash: Sha256Hash)
    | ShowHistory
    | VerifyHash
    | Abandoned
    | Quit

  /** The menu entries shown in each state. */
  predicate OnMenu(isLoggedIn: bool, choice: Choice) {
    match choice
    case PickLogin(_, _) => !isLoggedIn
    case PickSignup(_, _) => !isLoggedIn
    case VerifyHash => true
    case Abandoned => true
    case Quit => true
    case _ => isLoggedIn
  }

  /** The request a choice leads to; credentials that are too long are turned away locally. */
  function RequestFor(choice: Choice): Option<Request> {
    match choice
    case PickLogin(u, p) => if CredentialsFit(u, p) then Some(Login(u, p)) else None
    case PickSignup(u, p) => if CredentialsFit(u, p) then Some(SignUp(u, p)) else None
    case PickLogout => Some(LogOut)
    case CheckTokens => Some(HowManyTokensDoIHave)
    case BuyTokens(n) => Some(PurchaseTokens(n))
    case StampFile(h) => Some(SignHash(h))
    case ShowHistory => Some(History)
    case _ => None
  }

  /** What a user picks to have a request sent. */
  function ChoiceFor(request: Request): Choice {
    match request
    case Login(u, p) => PickLogin(u, p)
    case SignUp(u, p) => PickSignup(u, p)
    case LogOut => PickLogout
    case HowManyTokensDoIHave => CheckTokens
    case PurchaseTokens(n) => BuyTokens(n)
    case SignHash(h) => StampFile(h)
    case History => ShowHistory
  }

  /**
   The menu and the protocol fit: each choice leads to the request it names, with what was entered,
   unless the credentials have more than 32 bytes, and in each mode the menu offers exactly the
   requests that make sense in it.
   */
  lemma MenuFitsProtocol(isLoggedIn: bool, choice: Choice, request: Request)
    ensures RequestFor(choice) == Some(request) ==> choice == ChoiceFor(request)
    ensures RequestFor(choice) == None <==>
            || choice.VerifyHash? || choice.Abandoned? || choice.Quit?
            || ((choice.PickLogin? || choice.PickSignup?) && (|choice.username| > 32 || |choice.password| > 32))
    ensures OnMenu(isLoggedIn, ChoiceFor(request)) && RequestFor(ChoiceFor(request)) == Some(request) <==>
            Offered(isLoggedIn, request)
    ensures Offered(isLoggedIn, request) <==>
            if request.Login? || request.SignUp?
            then !isLoggedIn && |request.username| <= 32 && |request.password| <= 32
            else isLoggedIn
  {
  }

  /** The requests the menu can produce in each state. */
  predicate Offered(isLoggedIn: bool, request: Request) {
    match request
    case Login(u, p) => !isLoggedIn && CredentialsFit(u, p)
    case SignUp(u, p) => !isLoggedIn && CredentialsFit(u, p)
    case _ => isLoggedIn
  }

  /** The k-th request was on the menu that the exchanges before it produced. */
  predicate OfferedAt(requests: seq<Request>, replies: seq<Response>, k: nat)
    requires k < |requests| && k <= |replies|
  {
    Offered(LoggedIn(requests, replies[..k]), requests[k])
  }

  ghost predicate MenuDriven(requests: seq<Request>, replies: seq<Response>) {
    |replies| <= |requests| && forall k :: 0 <= k < |requests| && k <= |replies| ==> OfferedAt(requests, replies, k)
  }

  /** What serialising, sending and deserialising do; whether a reply comes is up to the stream. */
  datatype Wire = Delivers | CannotSerialize | CannotSend | CannotRead

  class Cli {
    var isLoggedIn: bool
    /** The replies the stream will still deliver before it ends. */
    var incoming: seq<Response>
    var sent: seq<Request>
    var received: seq<Response>
    /** The stream failed or ended before a reply arrived. */
    var lost: bool
    /** A reply arrived that could not be deserialised. */
    var garbled: bool

    constructor (replies: seq<Response>)
      ensures Valid() && sent == [] && received == [] && incoming == replies && !lost && !garbled
    {
      isLoggedIn, incoming, sent, received, lost, garbled := false, replies, [], [], false, false;
    }

    /** A request stays without a reply only if the stream was lost or the reply unreadable. */
    ghost predicate Paired()
      reads this
    {
      |received| <= |sent| && (|received| < |sent| ==> lost || garbled) && (lost ==> incoming == [])
    }

    /** Unless a reply was unreadable, the flag is what the exchanges amount to and the menu was kept to. */
    ghost predicate Valid()
      reads this
    {
      Paired() && (!garbled ==> isLoggedIn == LoggedIn(sent, received) && MenuDriven(sent, received))
    }

    /** Sends one request and waits for exactly one reply. */
    method SendRequest(request: Request, wire: Wire) returns (reply: Option<Response>)
      requires Paired()
      modifies this`incoming, this`sent, this`received, this`lost, this`garbled
      ensures Paired()
      ensures sent == if wire.CannotSerialize? then old(sent) else old(sent) + [request]
      ensures reply == if wire.Delivers? && old(incoming) != [] then Some(old(incoming)[0]) else None
      ensures received == if reply.Some? then old(received) + [reply.value] else old(received)
      ensures incoming == if wire.CannotSerialize? then old(incoming)
                          else if wire.CannotSend? || old(incoming) == [] then []
                          else old(incoming)[1..]
      ensures lost == (old(lost) || wire.CannotSend? || (!wire.CannotSerialize? && old(incoming) == []))
      ensures garbled == (old(garbled) || (wire.CannotRead? && old(incoming) != []))
    {
      if wire.CannotSerialize? {
        return None;
      }
      sent := sent + [request];
      if wire.CannotSend? || incoming == [] {
        lost, incoming := true, [];
        return None;
      }
      var raw := incoming[0];
      incoming := incoming[1..];
      if wire.CannotRead? {
        garbled := true;
        return None;
      }
      received := received + [raw];
      reply := Some(raw);
    }

    /** An exchange that the menu allows, and what it does to the mode. */
    method Ask(request: Request, wire: Wire) returns (reply: Option<Response>)
      requires Valid() && Offered(isLoggedIn, request)
      modifies this`incoming, this`sent, this`received, this`lost, this`garbled
      ensures Paired() && (old(garbled) ==> garbled)
      ensures sent == if wire.CannotSerialize? then old(sent) else old(sent) + [request]
      ensures !garbled ==>
                && MenuDriven(sent, received)
                && LoggedIn(sent, received) ==
                   (if request.Login? && reply == Some(Okay) then true
                    else if request.LogOut? && reply == Some(Okay) then false
                    else isLoggedIn)
                && received + incoming <= old(received) + old(incoming)
                && (lost || |received| == |old(received)| + 1 || sent == old(sent))
    {
      ghost var sent0, received0 := sent, received;
      if !garbled { MenuStays(sent0, received0, request); }
      reply := SendRequest(request, wire);
      if !garbled && reply.Some? {
        Exchanged(sent0, received0, request, reply.value);
        assert received + incoming == received0 + old(incoming);
      }
    }

    /** One turn of the menu loop; false when the user leaves. */
    method Turn(choice: Choice, wire: Wire) returns (goOn: bool)
      requires Valid()
      modifies this
      ensures Valid() && (old(garbled) ==> garbled)
      ensures goOn <==> !choice.Quit?
      ensures var asked := OnMenu(old(isLoggedIn), choice) && RequestFor(choice).Some? && !wire.CannotSerialize?;
              && sent == (if asked then old(sent) + [RequestFor(choice).value] else old(sent))
              && (!garbled ==> received + incoming <= old(received) + old(incoming))
              && (asked && !garbled ==> lost || |received| == |old(received)| + 1)
    {
      goOn := !choice.Quit?;
      if OnMenu(isLoggedIn, choice) && RequestFor(choice).Some? {
        var reply := Ask(RequestFor(choice).value, wire);
        if choice.PickLogin? && reply == Some(Okay) {
          isLoggedIn := true;
        }
        if choice.PickLogout? && reply == Some(Okay) {
          isLoggedIn := false;
        }
      }
    }

    /** The whole menu loop over the user's choices. */
    method Run(choices: seq<(Choice, Wire)>)
      requires Valid()
      modifies this
      ensures Valid() && (!garbled ==> received + incoming <= old(received) + old(incoming))
    {
      for i := 0 to |choices|
        invariant Valid() && (old(garbled) ==> garbled)
        invariant !garbled ==> received + incoming <= old(received) + old(incoming)
      {
        var goOn := Turn(choices[i].0, choices[i].1);
        if !goOn {
          return;
        }
      }
    }
  }

  lemma MenuStays(requests: seq<Request>, replies: seq<Response>, request: Request)
    requires MenuDriven(requests, replies)
    requires |requests| == |replies| ==> Offered(LoggedIn(requests, replies), request)
    ensures MenuDriven(requests + [request], replies)
    ensures LoggedIn(requests + [request], replies) == LoggedIn(requests, replies)
  {
    ModeIgnoresLaterRequests(requests, [request], replies);
    assert replies[..|replies|] == replies;
    forall k | 0 <= k < |requests| + 1 && k <= |replies| ensures OfferedAt(requests + [request], replies, k) {
      ModeIgnoresLaterRequests(requests, [request], replies[..k]);
      assert k < |requests| ==> OfferedAt(requests, replies, k);
    }
  }

  lemma MenuStaysAnswered(requests: seq<Request>, replies: seq<Response>, reply: Response)
    requires MenuDriven(requests, replies) && |requests| == |replies| + 1
    ensures MenuDriven(requests, replies + [reply])
  {
    forall k | 0 <= k < |requests| && k <= |replies| + 1 ensures OfferedAt(requests, replies + [reply], k) {
      assert (replies + [reply])[..k] == replies[..k];
      assert OfferedAt(requests, replies, k);
    }
  }

  lemma Exchanged(requests: seq<Request>, replies: seq<Response>, request: Request, reply: Response)
    requires MenuDriven(requests, replies) && |requests| == |replies| && Offered(LoggedIn(requests, replies), request)
    ensures MenuDriven(requests + [request], replies + [reply])
    ensures LoggedIn(requests + [request], replies + [reply]) ==
            if request.Login? && reply.Okay? then true
            else if request.LogOut? && reply.Okay? then false
            else LoggedIn(requests, replies)
  {
    MenuStays(requests, replies, request);
    ModeAfterReply(requests + [request], replies, reply);
    MenuStaysAnswered(requests + [request], replies, reply);
  }

  // ----- Client and server together -----

  /**
   Client and server agree: for a connection whose requests come from the menu, whenever the
   client has received and understood every reply and the server waits for the next request, the
   client's flag is the server's mode.
   */
  lemma FlagIsServerMode(cfg: Config, synced: bool, run: Run, s: State, c: ConnId, cli: Cli)
    requires Reaches(cfg, synced, run, s) && c in s.conns && cli.Valid() && !cli.garbled
    requires cli.sent == LogOf(cfg, synced, run, c).requests && cli.received == LogOf(cfg, synced, run, c).replies
    requires s.conns[c].GuestIdle? || s.conns[c].SessionIdle?
    ensures cli.isLoggedIn == s.conns[c].SessionIdle?
  {
    RepliesAnswerRequests(cfg, synced, run, s, c);
  }

  /** The k-th reply is no refusal that the menu should have prevented. */
  predicate Unrefused(requests: seq<Request>, replies: seq<Response>, k: nat)
    requires k < |replies| <= |requests|
  {
    && !replies[k].NotLoggedIn? && replies[k] != SignInFailed(SessionOpen)
    && (requests[k].SignUp? ==> !replies[k].OperationError?)
    && (LoggedIn(requests, replies[..k]) ==> !replies[k].LoginFailed?)
  }

  lemma OfferedIsUnrefused(requests: seq<Request>, replies: seq<Response>, k: nat)
    requires k < |replies| <= |requests| && AnsweredAt(requests, replies, k) && OfferedAt(requests, replies, k)
    ensures Unrefused(requests, replies, k)
  {
  }

  /**
   A client that keeps to its menu and can read what it receives, on a connection that delivers its
   requests and the replies in order as far as it delivers them, is never told that it is not logged
   in, that it is logged in already on this connection, or that its credentials are too long; every
   refusal it can get is about the credentials, the name or the account.
   */
  lemma MenuIsNeverRefused(cfg: Config, synced: bool, run: Run, s: State, c: ConnId, cli: Cli)
    requires Reaches(cfg, synced, run, s) && c in s.conns && cli.Valid() && !cli.garbled
    requires LogOf(cfg, synced, run, c).requests <= cli.sent && cli.received <= LogOf(cfg, synced, run, c).replies
    ensures forall k :: 0 <= k < |cli.received| ==> Unrefused(cli.sent, cli.received, k)
  {
    RepliesAnswerRequests(cfg, synced, run, s, c);
    var log := LogOf(cfg, synced, run, c);
    forall k | 0 <= k < |cli.received| ensures Unrefused(cli.sent, cli.received, k) {
      assert AnsweredAt(log.requests, log.replies, k);
      assert OfferedAt(cli.sent, cli.received, k);
      DeliveredInOrder(log.requests, log.replies, cli.sent, cli.received, k);
      OfferedIsUnrefused(cli.sent, cli.received, k);
    }
  }

  /** The k-th exchange looks the same from both ends. */
  lemma DeliveredInOrder(requests: seq<Request>, replies: seq<Response>, sent: seq<Request>, received: seq<Response>,
                         k: nat)
    requires k < |received| <= |replies| <= |requests| && requests <= sent && received <= replies
    ensures AnsweredAt(requests, replies, k) <==> AnsweredAt(sent, received, k)
  {
    ModeIgnoresLaterRequests(requests, sent[|requests|..], replies[..k]);
    assert requests + sent[|requests|..] == sent;
    assert replies[..k] == received[..k];
  }

  /** A client that could not read the reply to its logout still offers what the server then refuses. */
  lemma UnreadableLogoutMisleads(u: Text, p: Text)
    requires CredentialsFit(u, p)
    ensures var requests, replies := [Login(u, p), LogOut, History], [Okay, Okay, NotLoggedIn];
            && (forall k :: 0 <= k < 3 ==> AnsweredAt(requests, replies, k))
            && LoggedIn(requests, replies[..1]) && !LoggedIn(requests, replies[..2]) && Offered(true, requests[2])
  {
    var requests, replies: seq<Response> := [Login(u, p), LogOut, History], [Okay, Okay, NotLoggedIn];
    assert replies[..1] == [Okay] && replies[..2] == [Okay, Okay] && replies[..2][..1] == [Okay];
    assert AnsweredAt(requests, replies, 0) && AnsweredAt(requests, replies, 1) && AnsweredAt(requests, replies, 2);
  }
}
