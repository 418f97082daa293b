/**
 * The `StormBot` session of stormbot/bot.py: room and nick configuration,
 * routing of room messages (commands, the fallback chain, subscriptions),
 * peer discovery and the handling of peer command requests.
 *
 * The chat transport is abstracted away: `write` appends to `outbox`, and
 * discovery answers, plugin hooks and the command parser are inputs.
 */
module Bot {
  import opened Wrappers
  import opened Text
  import opened Peers

  /** The federation feature and item node the bot publishes and looks for. */
  const Namespace: string := "https://github.com/manoir/stormbot:1"
  const DefaultNick: string := "stormbot"
  /** The generic apology written when a command handler fails. */
  const Insane: string := "Are you trying to drive me insane?"
  const InternalServerError: string := "internal-server-error"

  /** A room message: `msg['mucnick']` and `msg['body']`. */
  datatype Message = Message(nick: string, body: string)

  /** Whether a command came from the room or was replayed for a peer (the `peer` argument of `_command`). */
  datatype Origin = Room | FromPeer(peer: string)

  datatype HandlerResult = Returned(value: Option<string>) | Raised(diagnostic: string)

  /**
   * What `_command` does with a body: shlex tokenisation fails
   * (`Unsplittable`), the argument parser reports an error
   * (`CommandParserError`) or aborts after help output (`CommandParserAbort`),
   * or a handler runs, writes some lines and returns or raises.
   */
  datatype ParseResult =
    | Handled(writes: seq<string>, result: HandlerResult)
    | ParseError(message: string, usage: string)
    | Abort(writes: seq<string>)
    | Unsplittable

  /** A fallback hook returns True, returns False, or raises (logged and skipped). */
  datatype Verdict = Claimed | Declined | Failed

  datatype FallbackAnswer = FallbackAnswer(writes: seq<string>, verdict: Verdict)

  /**
   * What a subscriber's `message` hook does: it returns, or raises an
   * exception whose text is `text`; `hasMessage` tells whether that exception
   * has a `message` attribute.
   */
  datatype Delivery =
    | Delivered(writes: seq<string>)
    | Faulted(writes: seq<string>, text: string, hasMessage: bool)

  /** What a `got_online` hook does: it writes some lines and returns, or writes some and raises. */
  datatype Greeting = Greeted(writes: seq<string>) | Crashed(writes: seq<string>)

  /**
   * A plugin: its optional distribution `(name, version)` and its hooks
   * (`fallback`, `message`, `got_online`), given as what they answer.
   */
  datatype Plugin = Plugin(
    dist: Option<Capability>,
    fallback: (Message, string) -> FallbackAnswer,
    message: (string, Message) -> Delivery,
    gotOnline: string -> Greeting)

  /** The answer of a service discovery query: a result or an IqError. */
  datatype Disco<T> = Answer(value: T) | IqError(condition: string)

  datatype ConnectStatus = Connected | MalformedItem | Unreachable

  /** A peer command iq as received: sender JID, requested plugin, and the command element. */
  datatype CommandRequest = CommandRequest(from: string, capability: Capability, sender: string, text: string)

  /** A peer command iq as built by `peer_forward_msg`. */
  datatype ForwardRequest = ForwardRequest(to: string, capability: Capability, sender: string, text: string)

  datatype Reply = ResultReply(text: string) | EmptyReply | ErrorReply(condition: string)

  /** Unknown sender or unsupported plugin (both only logged), a reply sent, or a reply built and never sent. */
  datatype CommandOutcome = UnknownPeer | Unsupported | Replied(reply: Reply) | ReplyDropped(reply: Reply)

  /** `get_distribution` finds no distribution, or comparing two versions raises (TypeError or AttributeError). */
  datatype LookupError = DistributionNotFound | VersionError

  /** The built-in Helper and Version plugins: no distribution, default hooks. */
  function BuiltIn(): Plugin
  {
    Plugin(None,
           (m: Message, body: string) => FallbackAnswer([], Declined),
           (n: string, m: Message) => Delivered([]),
           (n: string) => Greeted([]))
  }

  /** `args.room.partition('/')`, with "stormbot" for an empty nick. */
  function SplitRoomArg(arg: string): (r: (string, string))
    ensures '/' !in r.0 && r.1 != ""
    ensures '/' !in arg ==> r == (arg, DefaultNick)
    ensures '/' in arg ==> arg == OccupantJid(r.0, r.1) || (arg == r.0 + "/" && r.1 == DefaultNick)
  {
    var (room, _, nick) := Partition(arg, '/');
    (room, if nick == "" then DefaultNick else nick)
  }

  /** Configuring the bot with an occupant JID gives back its room and nick. */
  lemma RoomArgRoundTrip(room: string, nick: string)
    requires '/' !in room && nick != ""
    ensures SplitRoomArg(OccupantJid(room, nick)) == (room, nick)
  {
    PartitionAfter(room, '/', nick);
  }

  /** The capabilities of the plugins that have a distribution, in plugin order. */
  function Advertised(ps: seq<Plugin>): seq<Capability>
  {
    if ps == [] then []
    else
      var last := ps[|ps| - 1];
      Advertised(ps[..|ps| - 1]) + (if last.dist.Some? then [last.dist.value] else [])
  }

  /** `subscriptions.get(nick, [])`. */
  function Subscribers(subs: map<string, seq<Plugin>>, n: string): seq<Plugin>
  {
    if n in subs then subs[n] else []
  }

  predicate NickChar(c: char)
  {
    c != ' ' && c != ':'
  }

  function NickRun(s: string): (n: nat)
    ensures n <= |s|
    ensures forall i :: 0 <= i < n ==> NickChar(s[i])
    ensures n < |s| ==> !NickChar(s[n])
  {
    if s == [] || !NickChar(s[0]) then 0 else 1 + NickRun(s[1..])
  }

  /**
   * `re.search("^([^ :]+):", body)`: the nick a message is addressed to.
   * It is the one non-empty prefix free of spaces and colons that a colon
   * follows; when there is none the message is addressed to nobody.
   */
  function AddressedNick(body: string): (r: Option<string>)
    ensures r.Some? ==> r.value != "" && StartsWith(body, r.value + ":")
    ensures r.Some? ==> forall i :: 0 <= i < |r.value| ==> NickChar(r.value[i])
    ensures r.None? ==> forall k :: 0 < k < |body| && body[k] == ':' ==>
      exists i :: 0 <= i < k && !NickChar(body[i])
  {
    var n := NickRun(body);
    if 0 < n < |body| && body[n] == ':' then
      assert body[..n + 1] == body[..n] + ":";
      Some(body[..n])
    else
      assert forall k :: 0 < k < |body| && body[k] == ':' ==> !NickChar(body[n]) && n < k;
      None
  }

  /**
   * The first plugin, from index `from` on, whose fallback claims `body`.
   */
  function FirstClaim(ps: seq<Plugin>, msg: Message, body: string, from: nat): (r: Option<nat>)
    requires from <= |ps|
    ensures r.Some? ==> from <= r.value < |ps| && ps[r.value].fallback(msg, body).verdict == Claimed
    ensures r.Some? ==> forall j :: from <= j < r.value ==> ps[j].fallback(msg, body).verdict != Claimed
    ensures r.None? ==> forall j :: from <= j < |ps| ==> ps[j].fallback(msg, body).verdict != Claimed
    decreases |ps| - from
  {
    if from == |ps| then None
    else if ps[from].fallback(msg, body).verdict == Claimed then Some(from)
    else FirstClaim(ps, msg, body, from + 1)
  }

  /** Lines written by the fallbacks of the first `n` plugins, in order. */
  function FallbackWrites(ps: seq<Plugin>, msg: Message, body: string, n: nat): seq<string>
    requires n <= |ps|
  {
    if n == 0 then [] else FallbackWrites(ps, msg, body, n - 1) + ps[n - 1].fallback(msg, body).writes
  }

  /**
   * The for/else chain after a parse error: fallbacks run in plugin order up
   * to and including the first that claims the body; the parse error's
   * message and usage are written only when none claims it.
   */
  function FallbackOutcome(ps: seq<Plugin>, msg: Message, body: string, message: string, usage: string): (r: seq<string>)
    ensures FirstClaim(ps, msg, body, 0).Some? ==> r <= FallbackWrites(ps, msg, body, |ps|)
    ensures FirstClaim(ps, msg, body, 0).None? ==>
      |r| >= 2 && r[..|r| - 2] == FallbackWrites(ps, msg, body, |ps|) && r[|r| - 2..] == [message, usage]
  {
    match FirstClaim(ps, msg, body, 0)
    case Some(k) =>
      FallbackWritesGrow(ps, msg, body, k + 1, |ps|);
      FallbackWrites(ps, msg, body, k + 1)
    case None => FallbackWrites(ps, msg, body, |ps|) + [message, usage]
  }

  /** Later fallbacks only add lines after those of earlier ones. */
  lemma {:induction false} FallbackWritesGrow(ps: seq<Plugin>, msg: Message, body: string, i: nat, j: nat)
    requires i <= j <= |ps|
    ensures FallbackWrites(ps, msg, body, i) <= FallbackWrites(ps, msg, body, j)
    decreases j
  {
    if i < j {
      FallbackWritesGrow(ps, msg, body, i, j - 1);
      var shorter := FallbackWrites(ps, msg, body, j - 1);
      assert FallbackWrites(ps, msg, body, j)[..|shorter|] == shorter;
    }
  }

  /** The report of one subscriber's `message` hook, with every fault reported and skipped. */
  function Report(d: Delivery): seq<string>
  {
    match d
    case Delivered(w) => w
    case Faulted(w, text, _) => w + [text]
  }

  /** Lines written by the first `k` subscribers, every one of them run. */
  function Deliveries(ds: seq<Plugin>, n: string, msg: Message, k: nat): seq<string>
    requires k <= |ds|
  {
    if k == 0 then [] else Deliveries(ds, n, msg, k - 1) + Report(ds[k - 1].message(n, msg))
  }

  /** Every fault of the first `k` subscribers is reported: its text is among the lines written. */
  lemma {:induction false} FaultsReported(ds: seq<Plugin>, n: string, msg: Message, k: nat)
    requires k <= |ds|
    ensures forall i :: 0 <= i < k && ds[i].message(n, msg).Faulted? ==>
      ds[i].message(n, msg).text in Deliveries(ds, n, msg, k)
  {
    if k > 0 {
      FaultsReported(ds, n, msg, k - 1);
    }
  }

  /**
   * The subscriber loop as written at stormbot/bot.py:282-286: the handler
   * writes `e.message`, so an exception without that attribute raises
   * AttributeError inside the handler and ends the loop.
   */
  function DeliveriesAsWritten(ds: seq<Plugin>, n: string, msg: Message): (r: seq<string>)
    ensures r <= Deliveries(ds, n, msg, |ds|)
  {
    if ds == [] then []
    else
      DeliveriesShift(ds, n, msg, |ds|);
      match ds[0].message(n, msg)
      case Delivered(w) => w + DeliveriesAsWritten(ds[1..], n, msg)
      case Faulted(w, text, true) => w + [text] + DeliveriesAsWritten(ds[1..], n, msg)
      case Faulted(w, _, false) => w
  }

  /**
   * Two subscribers of "bob", the first of which raises an exception without
   * a `message` attribute: as written, the second never runs and nothing is
   * reported; with every fault reported, both run in order.
   */
  lemma SubscriberFaultStopsChain()
    ensures var bob := Message("alice", "bob: hi");
            var first := Plugin(None, (m: Message, b: string) => FallbackAnswer([], Declined),
                                (n: string, m: Message) => Faulted([], "boom", false), (n: string) => Greeted([]));
            var second := Plugin(None, (m: Message, b: string) => FallbackAnswer([], Declined),
                                 (n: string, m: Message) => Delivered(["hello bob"]), (n: string) => Greeted([]));
            DeliveriesAsWritten([first, second], "bob", bob) == [] &&
            Deliveries([first, second], "bob", bob, 2) == ["boom", "hello bob"]
  {
    var bob := Message("alice", "bob: hi");
    var first := Plugin(None, (m: Message, b: string) => FallbackAnswer([], Declined),
                        (n: string, m: Message) => Faulted([], "boom", false), (n: string) => Greeted([]));
    var second := Plugin(None, (m: Message, b: string) => FallbackAnswer([], Declined),
                         (n: string, m: Message) => Delivered(["hello bob"]), (n: string) => Greeted([]));
    assert Deliveries([first, second], "bob", bob, 1) == ["boom"];
  }

  /** When no subscriber faults, the corrected loop and the loop as written agree. */
  lemma {:induction false} DeliveriesAgreeWithoutFaults(ds: seq<Plugin>, n: string, msg: Message)
    requires forall i :: 0 <= i < |ds| ==> ds[i].message(n, msg).Delivered?
    ensures DeliveriesAsWritten(ds, n, msg) == Deliveries(ds, n, msg, |ds|)
  {
    if ds != [] {
      DeliveriesAgreeWithoutFaults(ds[1..], n, msg);
      DeliveriesShift(ds, n, msg, |ds|);
    }
  }

  /** Dropping the first subscriber drops its report from the front. */
  lemma {:induction false} DeliveriesShift(ds: seq<Plugin>, n: string, msg: Message, k: nat)
    requires 1 <= k <= |ds|
    ensures Deliveries(ds, n, msg, k) == Report(ds[0].message(n, msg)) + Deliveries(ds[1..], n, msg, k - 1)
  {
    if k > 1 {
      DeliveriesShift(ds, n, msg, k - 1);
    }
  }

  /**
   * The `got_online` hooks of the first `k` plugins, run in order until one
   * raises: the lines written, and whether every hook run returned.
   */
  function OnlineRun(ps: seq<Plugin>, who: string, k: nat): (r: (seq<string>, bool))
    requires k <= |ps|
    ensures r.1 <==> forall i :: 0 <= i < k ==> ps[i].gotOnline(who).Greeted?
  {
    if k == 0 then ([], true)
    else
      var (w, ok) := OnlineRun(ps, who, k - 1);
      if !ok then (w, false)
      else match ps[k - 1].gotOnline(who)
        case Greeted(x) => (w + x, true)
        case Crashed(x) => (w + x, false)
  }

  /** Once a hook has raised, the later hooks add nothing. */
  lemma {:induction false} OnlineRunStuck(ps: seq<Plugin>, who: string, j: nat, k: nat)
    requires j <= k <= |ps| && !OnlineRun(ps, who, j).1
    ensures OnlineRun(ps, who, k) == OnlineRun(ps, who, j)
    decreases k
  {
    if k > j {
      OnlineRunStuck(ps, who, j, k - 1);
    }
  }

  /**
   * When hook `j` raises and every earlier one returns, the lines written
   * are those of the hooks up to `j`, and no later hook runs.
   */
  lemma OnlineCrashStops(ps: seq<Plugin>, who: string, j: nat)
    requires j < |ps| && ps[j].gotOnline(who).Crashed?
    requires forall i :: 0 <= i < j ==> ps[i].gotOnline(who).Greeted?
    ensures OnlineRun(ps, who, |ps|) == (OnlineRun(ps, who, j).0 + ps[j].gotOnline(who).writes, false)
  {
    OnlineRunStuck(ps, who, j + 1, |ps|);
  }

  /** `_is_peer`: a non-empty nick whose discovery info lists the federation feature. */
  function IsPeer(who: string, info: Disco<seq<string>>): (r: bool)
    ensures who == "" ==> !r
    ensures info.IqError? ==> !r
    ensures who != "" && info.Answer? ==> (r <==> Namespace in info.value)
  {
    who != "" && info.Answer? && Namespace in info.value
  }

  /** The first plugin, from `from` on, whose distribution is exactly `c` (name and version). */
  function FirstMatch(ps: seq<Plugin>, c: Capability, from: nat): (r: Option<nat>)
    requires from <= |ps|
    ensures r.Some? ==> from <= r.value < |ps| && ps[r.value].dist == Some(c)
    ensures r.Some? ==> forall j :: from <= j < r.value ==> ps[j].dist != Some(c)
    ensures r.None? ==> forall j :: from <= j < |ps| ==> ps[j].dist != Some(c)
    decreases |ps| - from
  {
    if from == |ps| then None
    else if ps[from].dist == Some(c) then Some(from)
    else FirstMatch(ps, c, from + 1)
  }

  /** The iq a peer receives for a forwarded request: the room relays it from the sender's occupant JID. */
  function Relayed(from: string, req: ForwardRequest): CommandRequest
  {
    CommandRequest(from, req.capability, req.sender, req.text)
  }

  class StormBot {
    const room: string
    const nick: string
    const plugins: seq<Plugin>
    /** The command parser and handlers built from the plugins. */
    const dispatch: (Message, Origin) -> ParseResult
    const peering: Peering
    var subscriptions: map<string, seq<Plugin>>
    var peers: map<string, Peer>
    /** Every line passed to `write`, in order. */
    var outbox: seq<string>

    /** Each peer record is filed under its own nick and belongs to the bot's room. */
    ghost predicate Valid()
      reads this
    {
      && '/' !in room && nick != ""
      && forall n :: n in peers ==> peers[n].nick == n && peers[n].room == room
    }

    /** `StormBot.__init__` and `_init_plugins`: configuration split and capability advertisement. */
    constructor (roomArg: string, extra: seq<Plugin>, dispatch: (Message, Origin) -> ParseResult)
      ensures (room, nick) == SplitRoomArg(roomArg)
      ensures plugins == [BuiltIn(), BuiltIn()] + extra
      ensures this.dispatch == dispatch
      ensures fresh(peering) && peering.items == EncodeAll(Advertised(plugins))
      ensures subscriptions == map[] && peers == map[] && outbox == []
      ensures Valid()
    {
      var (r, n) := SplitRoomArg(roomArg);
      var ps := [BuiltIn(), BuiltIn()] + extra;
      var advertiser := new Peering();
      var i := 0;
      while i < |ps|
        invariant 0 <= i <= |ps|
        invariant advertiser.items == EncodeAll(Advertised(ps[..i]))
      {
        assert ps[..i + 1][..i] == ps[..i];
        match ps[i].dist {
          case Some(c) => advertiser.AddPlugin(c.name, c.version);
          case None =>
        }
        i := i + 1;
      }
      assert ps[..|ps|] == ps;
      room, nick, plugins, this.dispatch, peering := r, n, ps, dispatch, advertiser;
      subscriptions, peers, outbox := map[], map[], [];
    }

    /** `subscribe`: appends, keeping duplicates. */
    method Subscribe(n: string, p: Plugin)
      modifies this`subscriptions
      ensures subscriptions == old(subscriptions)[n := Subscribers(old(subscriptions), n) + [p]]
    {
      var current := if n in subscriptions then subscriptions[n] else [];
      subscriptions := subscriptions[n := current + [p]];
    }

    /** What a command addressed to the bot writes to the room. */
    function CommandReplies(msg: Message): (r: seq<string>)
      requires StartsWith(msg.body, nick + ":")
      ensures var d := dispatch(msg, Room);
        && (d.Unsplittable? ==> r == [Insane])
        && (d.Abort? || (d.Handled? && d.result.Returned?) ==> r == d.writes)
        && (d.Handled? && d.result.Raised? ==> r == d.writes + [Insane])
        && (d.ParseError? ==> r == FallbackOutcome(plugins, msg, msg.body[|nick| + 1..], d.message, d.usage))
    {
      match dispatch(msg, Room)
      case Unsplittable => [Insane]
      case Abort(w) => w
      case Handled(w, Returned(_)) => w
      case Handled(w, Raised(_)) => w + [Insane]
      case ParseError(m, u) => FallbackOutcome(plugins, msg, msg.body[|nick| + 1..], m, u)
    }

    /**
     * What `_muc_message` writes for one room message: nothing for the bot's
     * own messages, command output for "<nick>:" messages, and otherwise the
     * reports of the subscribers of the addressed nick.
     */
    function RoomReplies(msg: Message): (r: seq<string>)
      reads this
      ensures msg.nick == nick ==> r == []
      ensures msg.nick != nick && !StartsWith(msg.body, nick + ":") && AddressedNick(msg.body).None? ==> r == []
    {
      if msg.nick == nick then []
      else if StartsWith(msg.body, nick + ":") then CommandReplies(msg)
      else match AddressedNick(msg.body)
        case None => []
        case Some(n) =>
          var subs := Subscribers(subscriptions, n);
          Deliveries(subs, n, msg, |subs|)
    }

    /** `_muc_message`. */
    method MucMessage(msg: Message)
      modifies this`outbox
      ensures outbox == old(outbox) + RoomReplies(msg)
    {
      if msg.nick == nick {
        return;
      }
      if StartsWith(msg.body, nick + ":") {
        match dispatch(msg, Room)
        case Unsplittable =>
          outbox := outbox + [Insane];
        case Abort(w) =>
          outbox := outbox + w;
        case Handled(w, Returned(_)) =>
          outbox := outbox + w;
        case Handled(w, Raised(_)) =>
          outbox := outbox + w + [Insane];
        case ParseError(m, u) =>
          RunFallbacks(msg, msg.body[|nick| + 1..], m, u);
      } else {
        match AddressedNick(msg.body)
        case None =>
        case Some(n) =>
          Notify(n, msg);
      }
    }

    /** The fallback loop of `_muc_message`, run after a parse error. */
    method RunFallbacks(msg: Message, body: string, message: string, usage: string)
      modifies this`outbox
      ensures outbox == old(outbox) + FallbackOutcome(plugins, msg, body, message, usage)
    {
      var i := 0;
      var claimed := false;
      while i < |plugins|
        invariant 0 <= i <= |plugins|
        invariant outbox == old(outbox) + FallbackWrites(plugins, msg, body, i)
        invariant forall j :: 0 <= j < i ==> plugins[j].fallback(msg, body).verdict != Claimed
      {
        var answer := plugins[i].fallback(msg, body);
        outbox := outbox + answer.writes;
        i := i + 1;
        if answer.verdict == Claimed {
          claimed := true;
          break;
        }
      }
      if !claimed {
        outbox := outbox + [message, usage];
      }
    }

    /** The subscriber loop of `_muc_message`, with every fault reported. */
    method Notify(n: string, msg: Message)
      modifies this`outbox
      ensures outbox == old(outbox) + Deliveries(Subscribers(subscriptions, n), n, msg, |Subscribers(subscriptions, n)|)
    {
      var lines := RunSubscribers(Subscribers(subscriptions, n), n, msg);
      outbox := outbox + lines;
    }

    /** A peer record of `before`'s directory rebuilt for nick `n` from a discovery answer. */
    ghost predicate Rebuilt(before: map<string, Peer>, n: string, items: Disco<seq<string>>, status: ConnectStatus)
      reads this, peers.Values
    {
      && (forall m :: m != n ==> (m in peers <==> m in before))
      && (forall m :: m != n && m in peers ==> peers[m] == before[m])
      && (items.IqError? ==> n !in peers && status == Unreachable)
      && (items.Answer? ==>
            && n in peers
            && peers[n].plugins == DecodeItems(items.value).0
            && (status == Connected <==> DecodeItems(items.value).1)
            && (status != Connected ==> status == MalformedItem))
    }

    /**
     * `_peer_connect`: the old record goes first; an IqError leaves none, and
     * an answer gives a fresh record holding exactly the decoded items (a
     * malformed item raises and leaves the record with the items before it).
     */
    method PeerConnect(n: string, items: Disco<seq<string>>) returns (status: ConnectStatus)
      requires Valid()
      modifies this`peers
      ensures Valid()
      ensures Rebuilt(old(peers), n, items, status)
      ensures items.Answer? ==> fresh(peers[n])
    {
      peers := peers - {n};
      match items
      case IqError(_) =>
        status := Unreachable;
      case Answer(list) =>
        var p := new Peer(room, n);
        peers := peers[n := p];
        var complete := AddItems(p, list);
        status := if complete then Connected else MalformedItem;
    }

    /**
     * `got_online` and `_handle_peer`: ignored for the bot's own nick;
     * otherwise the plugins' hooks run in order, and when all of them return
     * a confirmed peer is (re)connected. A raising hook ends the handler:
     * later hooks do not run and the peer is not reconnected.
     */
    method GotOnline(who: string, info: Disco<seq<string>>, items: Disco<seq<string>>) returns (status: Option<ConnectStatus>)
      requires Valid()
      modifies this`outbox, this`peers
      ensures Valid()
      ensures who == nick ==> outbox == old(outbox) && peers == old(peers) && status.None?
      ensures who != nick ==> outbox == old(outbox) + OnlineRun(plugins, who, |plugins|).0
      ensures who != nick && !OnlineRun(plugins, who, |plugins|).1 ==> peers == old(peers) && status.None?
      ensures who != nick && !IsPeer(who, info) ==> peers == old(peers) && status.None?
      ensures who != nick && OnlineRun(plugins, who, |plugins|).1 && IsPeer(who, info) ==>
        status.Some? && Rebuilt(old(peers), who, items, status.value)
      ensures status.Some? && items.Answer? ==> fresh(peers[who])
    {
      status := None;
      if who == nick {
        return;
      }
      var i := 0;
      ghost var written: seq<string> := [];
      while i < |plugins|
        invariant 0 <= i <= |plugins|
        invariant OnlineRun(plugins, who, i) == (written, true)
        invariant outbox == old(outbox) + written
        invariant peers == old(peers)
      {
        match plugins[i].gotOnline(who) {
          case Greeted(w) =>
            outbox := outbox + w;
            written := written + w;
          case Crashed(w) =>
            outbox := outbox + w;
            OnlineRunStuck(plugins, who, i + 1, |plugins|);
            assert OnlineRun(plugins, who, |plugins|) == (written + w, false);
            return;
        }
        i := i + 1;
      }
      if IsPeer(who, info) {
        var s := PeerConnect(who, items);
        status := Some(s);
      }
    }

    /** Whether an iq comes from an occupant of the bot's room that is a known peer. */
    predicate FromKnownPeer(from: string)
      reads this
    {
      SplitJid(from).0 == room && SplitJid(from).1 in peers
    }

    /**
     * `_plugins_result`: entries from a known peer are added to its record,
     * anything else is dropped; no other record changes.
     */
    method PluginsResult(from: string, entries: seq<Capability>) returns (accepted: bool)
      requires Valid()
      modifies peers.Values
      ensures peers == old(peers)
      ensures accepted == FromKnownPeer(from)
      ensures accepted ==> peers[SplitJid(from).1].plugins == old(peers[SplitJid(from).1].plugins) + CapabilityTable(entries)
      ensures forall m :: m in peers && (!accepted || m != SplitJid(from).1) ==> peers[m].plugins == old(peers[m].plugins)
    {
      var (bare, resource) := SplitJid(from);
      if bare != room || resource !in peers {
        return false;
      }
      accepted := true;
      var p := peers[resource];
      assert forall m :: m in peers && m != resource ==> peers[m] != p;
      AddEntries(p, entries);
    }

    /**
     * Replaying a command for a peer: the reply it leads to and the lines it
     * writes to the room. A failing command's error reply is built but never
     * sent.
     */
    function Execute(msg: Message, origin: Origin): (r: (CommandOutcome, seq<string>))
      ensures r.0.Replied? || r.0.ReplyDropped?
      ensures r.0.Replied? ==> !r.0.reply.ErrorReply?
      ensures r.0.ReplyDropped? ==> r.0.reply == ErrorReply(InternalServerError)
      // a handler's non-None result is sent back as the result text
      ensures var d := dispatch(msg, origin);
        d.Handled? && d.result.Returned? && d.result.value.Some? <==> r.0.Replied? && r.0.reply.ResultReply?
      ensures var d := dispatch(msg, origin);
        d.Handled? && d.result.Returned? && d.result.value.Some? ==> r.0.reply.text == d.result.value.value
      // a None result, or a parser abort after help output, gets the empty reply
      ensures var d := dispatch(msg, origin);
        (d.Handled? && d.result == Returned(None)) || d.Abort? <==> r.0 == Replied(EmptyReply)
      // a shlex or parser error, or a raising handler, leaves the error reply unsent
      ensures var d := dispatch(msg, origin);
        d.Unsplittable? || d.ParseError? || (d.Handled? && d.result.Raised?) <==> r.0.ReplyDropped?
      // the lines the handler or the help output wrote stay in the room whatever the reply
      ensures var d := dispatch(msg, origin);
        r.1 == if d.Handled? || d.Abort? then d.writes else []
    {
      match dispatch(msg, origin)
      case Unsplittable => (ReplyDropped(ErrorReply(InternalServerError)), [])
      case ParseError(_, _) => (ReplyDropped(ErrorReply(InternalServerError)), [])
      case Abort(w) => (Replied(EmptyReply), w)
      case Handled(w, Returned(None)) => (Replied(EmptyReply), w)
      case Handled(w, Returned(Some(t))) => (Replied(ResultReply(t)), w)
      case Handled(w, Raised(_)) => (ReplyDropped(ErrorReply(InternalServerError)), w)
    }

    /**
     * `_peer_recv_command`: a request from an unknown sender, or for a plugin
     * no local plugin matches by name and version, gets no reply; otherwise
     * the command is replayed, tagged with the peer.
     */
    function RecvOutcome(iq: CommandRequest): (r: (CommandOutcome, seq<string>))
      reads this
      ensures !FromKnownPeer(iq.from) ==> r == (UnknownPeer, [])
      ensures FromKnownPeer(iq.from) && (forall i :: 0 <= i < |plugins| ==> plugins[i].dist != Some(iq.capability)) ==>
        r == (Unsupported, [])
      ensures r.0 == UnknownPeer || r.0 == Unsupported || r.0.Replied? || r.0.ReplyDropped?
    {
      if !FromKnownPeer(iq.from) then (UnknownPeer, [])
      else match FirstMatch(plugins, iq.capability, 0)
        case None => (Unsupported, [])
        case Some(_) => Execute(Message(iq.sender, iq.text), FromPeer(SplitJid(iq.from).1))
    }

    /** `_peer_recv_command`. */
    method PeerRecvCommand(iq: CommandRequest) returns (outcome: CommandOutcome)
      modifies this`outbox
      ensures outcome == RecvOutcome(iq).0
      ensures outbox == old(outbox) + RecvOutcome(iq).1
    {
      var (bare, resource) := SplitJid(iq.from);
      if bare != room || resource !in peers {
        return UnknownPeer;
      }
      var i := 0;
      while i < |plugins|
        invariant 0 <= i <= |plugins|
        invariant forall j :: 0 <= j < i ==> plugins[j].dist != Some(iq.capability)
      {
        match plugins[i].dist {
          case None =>
          case Some(c) =>
            if c == iq.capability {
              var result := Execute(Message(iq.sender, iq.text), FromPeer(resource));
              outbox := outbox + result.1;
              return result.0;
            }
        }
        i := i + 1;
      }
      return Unsupported;
    }

    /**
     * `get_peers`: every peer, or the peers supporting the plugin's own
     * distribution version.
     */
    function GetPeers(filter: Option<Plugin>): (r: Result<set<Peer>, LookupError>)
      reads this, peers.Values
      ensures filter.None? ==> r == Ok(peers.Values)
      ensures filter.Some? && filter.value.dist.None? ==> r == Err(DistributionNotFound)
      ensures r.Ok? ==> r.value <= peers.Values
      ensures r.Ok? && filter.Some? ==> forall n :: n in peers ==>
        (peers[n] in r.value <==> peers[n].Supports(filter.value.dist.value.name, filter.value.dist.value.version) == Some(true))
      ensures r == Err(VersionError) <==> (filter.Some? && filter.value.dist.Some? &&
        exists n :: n in peers && peers[n].Supports(filter.value.dist.value.name, filter.value.dist.value.version).None?)
    {
      match filter
      case None => Ok(peers.Values)
      case Some(p) =>
        match p.dist
        case None => Err(DistributionNotFound)
        case Some(c) =>
          if exists n :: n in peers && peers[n].Supports(c.name, c.version).None? then Err(VersionError)
          else Ok(set n | n in peers && peers[n].Supports(c.name, c.version) == Some(true) :: peers[n])
    }

    /**
     * `peer_send_command`: the request addressed to the target peer, naming
     * the plugin's distribution, sent on behalf of `sender` (or the bot).
     */
    function PeerSendCommand(p: Plugin, target: Peer, command: string, sender: Option<string>): (r: Result<ForwardRequest, LookupError>)
      requires Valid()
      reads this
      ensures r.Ok? <==> p.dist.Some?
      ensures r.Ok? ==> r.value.capability == p.dist.value && r.value.to == target.Jid()
      ensures r.Ok? ==> r.value.sender != ""
      ensures r.Ok? ==> r.value.sender == if sender.None? || sender.value == "" then nick else sender.value
      ensures r.Ok? ==> r.value.text == target.nick + ": " + command
    {
      match p.dist
      case None => Err(DistributionNotFound)
      case Some(c) =>
        var from := if sender.None? || sender.value == "" then nick else sender.value;
        Ok(ForwardRequest(target.Jid(), c, from, target.nick + ": " + command))
    }
  }

  /**
   * The decoding loop of `_peer_connect`: each item is split at '#' and added
   * to the new record, until an item fails to unpack.
   */
  method AddItems(p: Peer, list: seq<string>) returns (complete: bool)
    requires p.plugins == map[]
    modifies p
    ensures (p.plugins, complete) == DecodeItems(list)
  {
    var i := 0;
    while i < |list|
      invariant 0 <= i <= |list|
      invariant DecodeItems(list[..i]) == (p.plugins, true)
    {
      assert list[..i + 1][..i] == list[..i];
      match DecodeItem(list[i]) {
        case None =>
          DecodeItemsStuck(list, i + 1);
          return false;
        case Some(c) =>
          p.AddPlugin(c.name, c.version);
      }
      i := i + 1;
    }
    assert list[..|list|] == list;
    return true;
  }

  /** The subscriber loop of `_muc_message`: each subscriber runs, and a fault is reported and skipped. */
  method RunSubscribers(subs: seq<Plugin>, n: string, msg: Message) returns (lines: seq<string>)
    ensures lines == Deliveries(subs, n, msg, |subs|)
  {
    lines := [];
    var i := 0;
    while i < |subs|
      invariant 0 <= i <= |subs|
      invariant lines == Deliveries(subs, n, msg, i)
    {
      match subs[i].message(n, msg) {
        case Delivered(w) =>
          lines := lines + w;
        case Faulted(w, text, _) =>
          lines := lines + w + [text];
      }
      i := i + 1;
    }
  }

  /** The loop of `_plugins_result`: every entry is added to the peer's map, in order. */
  method AddEntries(p: Peer, entries: seq<Capability>)
    modifies p
    ensures p.plugins == old(p.plugins) + CapabilityTable(entries)
  {
    var i := 0;
    while i < |entries|
      invariant 0 <= i <= |entries|
      invariant p.plugins == old(p.plugins) + CapabilityTable(entries[..i])
    {
      assert entries[..i + 1][..i] == entries[..i];
      p.AddPlugin(entries[i].name, entries[i].version);
      i := i + 1;
    }
    assert entries[..|entries|] == entries;
  }

  /** A decoding that has failed stays failed and unchanged. */
  lemma {:induction false} DecodeItemsStuck(items: seq<string>, k: nat)
    requires k <= |items| && !DecodeItems(items[..k]).1
    ensures DecodeItems(items) == DecodeItems(items[..k])
    decreases |items| - k
  {
    if k < |items| {
      assert items[..k + 1][..k] == items[..k];
      DecodeItemsStuck(items, k + 1);
    } else {
      assert items[..k] == items;
    }
  }

  /**
   * When every peer advertises a digit-and-dot version of the plugin's
   * distribution name (or does not advertise it) and the plugin's version is
   * numeric, `get_peers` succeeds and returns exactly the peers whose version
   * is at least the plugin's in numeric order.
   */
  lemma GetPeersNumeric(b: StormBot, p: Plugin)
    requires p.dist.Some? && LooseVersion.IsNumeric(p.dist.value.version)
    requires forall n :: n in b.peers && p.dist.value.name in b.peers[n].plugins ==>
      LooseVersion.IsNumeric(b.peers[n].plugins[p.dist.value.name])
    ensures b.GetPeers(Some(p)).Ok?
    ensures forall n :: n in b.peers ==> (b.peers[n] in b.GetPeers(Some(p)).value <==>
      p.dist.value.name in b.peers[n].plugins &&
      LooseVersion.AllNumbers(LooseVersion.Components(b.peers[n].plugins[p.dist.value.name])) &&
      LooseVersion.AllNumbers(LooseVersion.Components(p.dist.value.version)) &&
      LooseVersion.LexAtLeast(LooseVersion.Values(LooseVersion.Components(b.peers[n].plugins[p.dist.value.name])),
                              LooseVersion.Values(LooseVersion.Components(p.dist.value.version))))
  {
    var c := p.dist.value;
    LooseVersion.NumericComponents(c.version);
    forall n | n in b.peers
      ensures b.peers[n].Supports(c.name, c.version).Some?
      ensures b.peers[n].Supports(c.name, c.version) == Some(true) <==>
        c.name in b.peers[n].plugins &&
        LooseVersion.AllNumbers(LooseVersion.Components(b.peers[n].plugins[c.name])) &&
        LooseVersion.AllNumbers(LooseVersion.Components(c.version)) &&
        LooseVersion.LexAtLeast(LooseVersion.Values(LooseVersion.Components(b.peers[n].plugins[c.name])),
                                LooseVersion.Values(LooseVersion.Components(c.version)))
    {
      var q := b.peers[n];
      SupportsNumeric(q, c.name, c.version);
      if c.name in q.plugins {
        LooseVersion.NumericComponents(q.plugins[c.name]);
      }
    }
  }

  /**
   * Forwarding between two bots of one room: the request bot `a` builds for
   * its record of bot `b` reaches `b`'s nick, and when `b` knows `a` as a
   * peer and has a plugin of the same distribution, `b` replays the command
   * addressed to its own nick, on behalf of the sender, tagged with `a`.
   */
  lemma ForwardAccepted(a: StormBot, b: StormBot, p: Plugin, target: Peer, command: string, sender: Option<string>)
    requires a.Valid() && b.Valid()
    requires a.room == b.room && target.room == a.room && target.nick == b.nick
    requires a.nick in b.peers
    requires p.dist.Some? && exists i :: 0 <= i < |b.plugins| && b.plugins[i].dist == p.dist
    ensures a.PeerSendCommand(p, target, command, sender).Ok?
    ensures SplitJid(a.PeerSendCommand(p, target, command, sender).value.to) == (b.room, b.nick)
    ensures var req := a.PeerSendCommand(p, target, command, sender).value;
      b.RecvOutcome(Relayed(OccupantJid(a.room, a.nick), req)) ==
      b.Execute(Message(req.sender, b.nick + ": " + command), FromPeer(a.nick))
  {
    JidRoundTrip(a.room, a.nick);
    var req := a.PeerSendCommand(p, target, command, sender).value;
    var iq := Relayed(OccupantJid(a.room, a.nick), req);
    assert b.FromKnownPeer(iq.from);
    assert FirstMatch(b.plugins, iq.capability, 0).Some?;
  }

  /**
   * The parse-error chain with a first plugin that declines and a second that
   * claims: both fallbacks run, in order, and no error or usage is written.
   */
  lemma FallbackSecondClaims(msg: Message, body: string, message: string, usage: string)
    ensures var first := Plugin(None, (m: Message, b: string) => FallbackAnswer(["first"], Declined),
                                (n: string, m: Message) => Delivered([]), (n: string) => Greeted([]));
            var second := Plugin(None, (m: Message, b: string) => FallbackAnswer(["second"], Claimed),
                                 (n: string, m: Message) => Delivered([]), (n: string) => Greeted([]));
            FallbackOutcome([first, second], msg, body, message, usage) == ["first", "second"]
  {
    var first := Plugin(None, (m: Message, b: string) => FallbackAnswer(["first"], Declined),
                        (n: string, m: Message) => Delivered([]), (n: string) => Greeted([]));
    var second := Plugin(None, (m: Message, b: string) => FallbackAnswer(["second"], Claimed),
                         (n: string, m: Message) => Delivered([]), (n: string) => Greeted([]));
    assert FirstClaim([first, second], msg, body, 0) == Some(1);
    assert FallbackWrites([first, second], msg, body, 1) == ["first"];
  }

  /** Plugin `k` is the first whose fallback claims `body`. */
  predicate FirstClaimant(ps: seq<Plugin>, msg: Message, body: string, k: int)
  {
    && 0 <= k < |ps|
    && ps[k].fallback(msg, body).verdict == Claimed
    && forall j :: 0 <= j < k ==> ps[j].fallback(msg, body).verdict != Claimed
  }

  /**
   * The parse error's message and usage close the output exactly when no
   * plugin claims the body; otherwise the output is the fallbacks' own lines
   * up to the first claimant.
   */
  lemma FallbackErrorOnlyIfUnclaimed(ps: seq<Plugin>, msg: Message, body: string, message: string, usage: string)
    ensures (forall j :: 0 <= j < |ps| ==> ps[j].fallback(msg, body).verdict != Claimed) ==>
      FallbackOutcome(ps, msg, body, message, usage) == FallbackWrites(ps, msg, body, |ps|) + [message, usage]
    ensures forall k :: FirstClaimant(ps, msg, body, k) ==>
      FallbackOutcome(ps, msg, body, message, usage) == FallbackWrites(ps, msg, body, k + 1)
  {
    var r := FirstClaim(ps, msg, body, 0);
    if r.Some? {
      forall k | FirstClaimant(ps, msg, body, k)
        ensures k == r.value
      {
      }
    }
  }
}
