/**
 * The peer directory of stormbot/bot.py: the `name#version` capability
 * items a bot advertises (`StormbotPeering`), occupant JIDs, and the `Peer`
 * record a bot keeps for each sibling instance in the room.
 */
module Peers {
  import opened Wrappers
  import opened Text
  import LooseVersion

  /** A plugin's distribution name and version. */
  datatype Capability = Capability(name: string, version: string)

  /** `StormbotPeering.add_plugin` formats an advertised item as `name#version`. */
  function EncodeItem(c: Capability): (r: string)
    ensures Count(r, '#') == Count(c.name, '#') + Count(c.version, '#') + 1
    ensures '#' !in c.name && '#' !in c.version ==> Split(r, '#') == [c.name, c.version]
  {
    var r := c.name + "#" + c.version;
    assert r == c.name + ['#'] + c.version;
    CountAppend(c.name + ['#'], c.version, '#');
    CountAppend(c.name, ['#'], '#');
    if '#' !in c.name && '#' !in c.version then
      SplitAfter(c.name, '#', c.version);
      SplitNoSep(c.version, '#');
      r
    else r
  }

  /**
   * `name, version = item.split('#')` in `_peer_connect`: None when the
   * unpacking raises ValueError, that is when the item does not hold exactly
   * one '#'.
   */
  function DecodeItem(item: string): (r: Option<Capability>)
    ensures r.Some? <==> Count(item, '#') == 1
    ensures r.Some? ==> EncodeItem(r.value) == item
  {
    SplitLength(item, '#');
    var parts := Split(item, '#');
    if |parts| == 2 then
      JoinSplit(item, '#');
      Some(Capability(parts[0], parts[1]))
    else None
  }

  /** Decoding inverts encoding exactly when neither part holds a '#'. */
  lemma ItemRoundTrip(c: Capability)
    ensures DecodeItem(EncodeItem(c)) == Some(c) <==> '#' !in c.name && '#' !in c.version
  {
    CountZero(c.name, '#');
    CountZero(c.version, '#');
  }

  /** The XEP-0045 occupant JID `room/nick` (`Peer.jid`). */
  function OccupantJid(room: string, nick: string): string
  {
    room + "/" + nick
  }

  /**
   * slixmpp's `JID(...).bare` and `.resource`: the resourcepart is what
   * follows the first '/' (RFC 7622, section 3.4), empty when there is none.
   */
  function SplitJid(jid: string): (r: (string, string))
    ensures '/' !in r.0
    ensures '/' in jid ==> jid == OccupantJid(r.0, r.1)
    ensures '/' !in jid ==> r == (jid, "")
  {
    var (bare, _, resource) := Partition(jid, '/');
    (bare, resource)
  }

  /** An occupant JID splits back into its room and nick when the room has no '/'. */
  lemma JidRoundTrip(room: string, nick: string)
    requires '/' !in room
    ensures SplitJid(OccupantJid(room, nick)) == (room, nick)
  {
    PartitionAfter(room, '/', nick);
  }

  /** A sibling bot instance in the room and the capabilities it advertised. */
  class Peer {
    const room: string
    const nick: string
    /** Capability name to version; the source stores `{'name': .., 'version': ..}` per name. */
    var plugins: map<string, string>

    constructor (room: string, nick: string)
      ensures this.room == room && this.nick == nick && plugins == map[]
    {
      this.room := room;
      this.nick := nick;
      plugins := map[];
    }

    function Jid(): (j: string)
      ensures '/' !in room ==> SplitJid(j) == (room, nick)
    {
      var j := OccupantJid(room, nick);
      if '/' in room then j else JidRoundTrip(room, nick); j
    }

    /** `Peer.add_plugin`: records or replaces the version for one name. */
    method AddPlugin(name: string, version: string)
      modifies this
      ensures plugins == old(plugins)[name := version]
    {
      plugins := plugins[name := version];
    }

    /**
     * `Peer.supports`: the capability is known and its stored version is at
     * least `version`; None when comparing the two versions raises (TypeError,
     * or AttributeError for an empty version).
     */
    function Supports(name: string, version: string): (r: Option<bool>)
      reads this
      ensures name !in plugins ==> r == Some(false)
      ensures r == Some(true) ==> name in plugins
    {
      if name !in plugins then Some(false) else LooseVersion.AtLeast(plugins[name], version)
    }
  }

  /**
   * For digit-and-dot versions `supports` never raises, and it holds exactly
   * when the name is known and its version is at least the requested one in
   * component-wise numeric order.
   */
  lemma SupportsNumeric(p: Peer, name: string, version: string)
    requires name in p.plugins ==> LooseVersion.IsNumeric(p.plugins[name])
    requires LooseVersion.IsNumeric(version)
    ensures p.Supports(name, version).Some?
    ensures p.Supports(name, version) == Some(true) <==>
      name in p.plugins &&
      LooseVersion.AllNumbers(LooseVersion.Components(p.plugins[name])) &&
      LooseVersion.AllNumbers(LooseVersion.Components(version)) &&
      LooseVersion.LexAtLeast(LooseVersion.Values(LooseVersion.Components(p.plugins[name])),
                              LooseVersion.Values(LooseVersion.Components(version)))
  {
    if name in p.plugins {
      var a, b := LooseVersion.Components(p.plugins[name]), LooseVersion.Components(version);
      LooseVersion.NumericComponents(p.plugins[name]);
      LooseVersion.NumericComponents(version);
      LooseVersion.CompareNumbers(a, b);
    }
  }

  /**
   * `StormbotPeering`: the list of `name#version` items the bot publishes
   * under its namespace node.
   */
  class Peering {
    var items: seq<string>

    constructor ()
      ensures items == []
    {
      items := [];
    }

    /** `StormbotPeering.add_plugin`. */
    method AddPlugin(name: string, version: string)
      modifies this
      ensures items == old(items) + [EncodeItem(Capability(name, version))]
    {
      items := items + [EncodeItem(Capability(name, version))];
    }
  }

  /**
   * What `_peer_connect` builds from a discovery item list: the capabilities
   * of the items decoded before the first malformed one (later items replace
   * earlier ones of the same name), and whether every item decoded.
   */
  function DecodeItems(items: seq<string>): (r: (map<string, string>, bool))
    ensures r.1 <==> forall i :: 0 <= i < |items| ==> DecodeItem(items[i]).Some?
  {
    if items == [] then (map[], true)
    else
      var (caps, ok) := DecodeItems(items[..|items| - 1]);
      var last := items[|items| - 1];
      if !ok then (caps, false)
      else match DecodeItem(last)
        case None => (caps, false)
        case Some(c) =>
          assert items == items[..|items| - 1] + [last];
          (caps[c.name := c.version], true)
  }

  /** Capability table of a list of capabilities, later entries winning. */
  function CapabilityTable(cs: seq<Capability>): map<string, string>
  {
    if cs == [] then map[]
    else CapabilityTable(cs[..|cs| - 1])[cs[|cs| - 1].name := cs[|cs| - 1].version]
  }

  function EncodeAll(cs: seq<Capability>): (items: seq<string>)
    ensures |items| == |cs|
    ensures forall i :: 0 <= i < |cs| ==> items[i] == EncodeItem(cs[i])
  {
    if cs == [] then [] else EncodeAll(cs[..|cs| - 1]) + [EncodeItem(cs[|cs| - 1])]
  }

  /**
   * What one bot advertises, another decodes back: a peer record built from
   * the advertised items holds exactly the advertised capabilities, provided
   * no name or version contains '#'.
   */
  lemma {:induction false} AdvertisedRoundTrip(cs: seq<Capability>)
    requires forall i :: 0 <= i < |cs| ==> '#' !in cs[i].name && '#' !in cs[i].version
    ensures DecodeItems(EncodeAll(cs)) == (CapabilityTable(cs), true)
  {
    if cs != [] {
      var init := cs[..|cs| - 1];
      AdvertisedRoundTrip(init);
      ItemRoundTrip(cs[|cs| - 1]);
      assert EncodeAll(cs)[..|cs| - 1] == EncodeAll(init);
    }
  }
}
