/** The plugin configuration: folding flat keys into bots, overlaying credentials files, checking ids,
    and building the bots. */
module Config {
  import opened Text
  import opened Routing
  import opened Bridge
  import opened Plugin

  /** One bot's settings; the flat keys at the root have the same fields but no id. */
  datatype BotConfig = BotConfig(
    id: string, gateway: string, cdn: string, token: string, credentialsPath: string,
    skRouteTag: string, channelVersion: string, accountID: string, allowFrom: seq<string>)

  const EMPTY := BotConfig("", "", "", "", "", "", "", "", [])

  datatype Credentials = Credentials(gateway: string, cdn: string, token: string, accountID: string)

  function Or(own: string, other: string): (r: string) {
    if Blank(own) then other else own
  }

  /** Settings a bot leaves blank come from the root. */
  function Inherit(b: BotConfig, root: BotConfig): (r: BotConfig) {
    BotConfig(b.id, Or(b.gateway, root.gateway), Or(b.cdn, root.cdn), Or(b.token, root.token),
              Or(b.credentialsPath, root.credentialsPath), Or(b.skRouteTag, root.skRouteTag),
              Or(b.channelVersion, root.channelVersion), Or(b.accountID, root.accountID),
              if b.allowFrom == [] then root.allowFrom else b.allowFrom)
  }

  /** Settings present in the credentials file replace the bot's. */
  function Overlay(b: BotConfig, c: Credentials): (r: BotConfig) {
    b.(gateway := if Blank(c.gateway) then b.gateway else TrimSpace(c.gateway),
       cdn := if Blank(c.cdn) then b.cdn else TrimSpace(c.cdn),
       token := if Blank(c.token) then b.token else TrimSpace(c.token),
       accountID := if Blank(c.accountID) then b.accountID else TrimSpace(c.accountID))
  }

  /** `read` is the credentials file at a path, or None when it cannot be read. */
  function MergeCredentials(b: BotConfig, read: string -> Option<Credentials>): (r: Result<BotConfig>) {
    var p := TrimSpace(b.credentialsPath);
    if p == "" then Ok(b)
    else match read(p) case None => Err case Some(c) => Ok(Overlay(b, c))
  }

  function CheckedID(b: BotConfig): (r: Result<BotConfig>) {
    if Blank(b.id) then Ok(b)
    else match SanitizeLoginID(TrimSpace(b.id)) case Err => Err case Ok(id) => Ok(b.(id := id))
  }

  /** What finalizing makes of one bot. */
  function FinalBot(b: BotConfig, root: BotConfig, read: string -> Option<Credentials>): (r: Result<BotConfig>) {
    match MergeCredentials(Inherit(b, root), read)
    case Err => Err
    case Ok(m) =>
      match CheckedID(m)
      case Err => Err
      case Ok(f) => Ok(if Blank(f.accountID) then f.(accountID := "default") else f)
  }

  /** The tape labels of the bots. */
  function Labels(bots: seq<BotConfig>): (r: seq<string>)
    ensures |r| == |bots| && forall i | 0 <= i < |bots| :: r[i] == TrimSpace(bots[i].id)
  {
    seq(|bots|, i requires 0 <= i < |bots| => TrimSpace(bots[i].id))
  }

  /** What the check demands: ids when there are several bots, all different, and for every bot a gateway
      and a token. */
  ghost predicate ValidBots(bots: seq<BotConfig>) {
    && bots != []
    && (|bots| > 1 ==> forall i | 0 <= i < |bots| :: Labels(bots)[i] != "")
    && (|bots| > 1 ==> forall i, j | 0 <= i < j < |bots| :: Labels(bots)[i] != Labels(bots)[j])
    && (forall i | 0 <= i < |bots| :: !Blank(bots[i].gateway) && !Blank(bots[i].token))
  }

  method DistinctIDs(bots: seq<BotConfig>) returns (ok: bool)
    ensures ok <==>
      && (forall i | 0 <= i < |bots| :: Labels(bots)[i] != "")
      && (forall i, j | 0 <= i < j < |bots| :: Labels(bots)[i] != Labels(bots)[j])
  {
    var seen: set<string> := {};
    for i := 0 to |bots|
      invariant forall j | 0 <= j < i :: Labels(bots)[j] in seen && Labels(bots)[j] != ""
      invariant forall s | s in seen :: exists j :: 0 <= j < i && Labels(bots)[j] == s
      invariant forall j, k | 0 <= j < k < i :: Labels(bots)[j] != Labels(bots)[k]
    {
      hide TrimSpace;
      var id := TrimSpace(bots[i].id);
      assert Labels(bots)[i] == id;
      hide Labels;
      if id == "" { return false; }
      if id in seen {
        ghost var j :| 0 <= j < i && Labels(bots)[j] == id;
        return false;
      }
      seen := seen + {id};
    }
    ok := true;
  }

  method ValidateBots(bots: seq<BotConfig>) returns (ok: bool)
    ensures ok <==> ValidBots(bots)
  {
    hide TrimSpace, Labels;
    if |bots| == 0 { return false; }
    if |bots| > 1 {
      var distinct := DistinctIDs(bots);
      if !distinct { return false; }
    }
    for i := 0 to |bots|
      invariant forall j | 0 <= j < i :: !Blank(bots[j].gateway) && !Blank(bots[j].token)
    {
      if TrimSpace(bots[i].gateway) == "" { return false; }
      if TrimSpace(bots[i].token) == "" { return false; }
    }
    ok := true;
  }

  /** The bots before finalizing: an empty list stands for one bot with no settings of its own. */
  function Given(bots: seq<BotConfig>): (r: seq<BotConfig>) {
    if bots == [] then [EMPTY] else bots
  }

  ghost predicate Finalizes(given: seq<BotConfig>, root: BotConfig, read: string -> Option<Credentials>,
                            final: seq<BotConfig>)
  {
    |final| == |given| && forall i | 0 <= i < |given| :: FinalBot(given[i], root, read) == Ok(final[i])
  }

  class WeixinConfig {
    var bots: seq<BotConfig>
    var root: BotConfig

    constructor (bots: seq<BotConfig>, root: BotConfig)
      ensures this.bots == bots && this.root == root
    {
      this.bots, this.root := bots, root;
    }

    /** Accepts exactly the configurations whose bots can all be finalized and then pass the check; on
        success the bots are the finalized ones and the flat keys mirror the first of them. */
    method Finalize(read: string -> Option<Credentials>) returns (ok: bool)
      modifies this
      ensures ok <==> exists final :: Finalizes(Given(old(bots)), old(root), read, final) && ValidBots(final)
      ensures ok ==> Finalizes(Given(old(bots)), old(root), read, bots) && ValidBots(bots)
      ensures ok ==> root == bots[0].(id := old(root.id))
    {
      hide TrimSpace, Inherit, Overlay, ValidId;
      ghost var given := Given(bots);
      if |bots| == 0 { bots := [EMPTY]; }
      for i := 0 to |bots|
        invariant |bots| == |given| && root == old(root)
        invariant forall j | 0 <= j < i :: FinalBot(given[j], root, read) == Ok(bots[j])
        invariant forall j | i <= j < |bots| :: bots[j] == given[j]
      {
        var b := Inherit(bots[i], root);
        var merged := MergeCredentials(b, read);
        if merged.Err? {
          assert FinalBot(given[i], root, read).Err?;
          return false;
        }
        b := merged.value;
        if TrimSpace(b.id) != "" {
          var safe := SanitizeLoginID(TrimSpace(b.id));
          if safe.Err? {
            assert FinalBot(given[i], root, read).Err?;
            return false;
          }
          b := b.(id := safe.value);
        }
        if TrimSpace(b.accountID) == "" { b := b.(accountID := "default"); }
        assert FinalBot(given[i], root, read) == Ok(b);
        bots := bots[i := b];
      }
      assert Finalizes(given, root, read, bots);
      ok := ValidateBots(bots);
      if !ok {
        forall final | Finalizes(given, root, read, final) ensures !ValidBots(final) {
          assert final == bots;
        }
        return;
      }
      root := bots[0].(id := root.id);
    }
  }

  /** The credentials that count for a bot: those in the file its path, or the root's, leads to. */
  function Overlaid(b: BotConfig, root: BotConfig, read: string -> Option<Credentials>): (c: Credentials) {
    var path := TrimSpace(Or(b.credentialsPath, root.credentialsPath));
    if path == "" then Credentials("", "", "", "")
    else match read(path) case None => Credentials("", "", "", "") case Some(c) => c
  }

  /** `first` when it is not blank, trimmed; else `second` when it is not blank; else `third`. */
  function Prefer(first: string, second: string, third: string): (r: string) {
    if !Blank(first) then TrimSpace(first) else if !Blank(second) then second else third
  }

  /** The order of precedence: the credentials file, then the bot's own setting, then the root's; an account
      id that is blank everywhere is "default".  A path that is named must be readable. */
  lemma Precedence(b: BotConfig, root: BotConfig, read: string -> Option<Credentials>)
    requires FinalBot(b, root, read).Ok?
    ensures var f, c := FinalBot(b, root, read).value, Overlaid(b, root, read);
      var path := TrimSpace(Or(b.credentialsPath, root.credentialsPath));
      && (path != "" ==> read(path).Some?)
      && f.token == Prefer(c.token, b.token, root.token)
      && f.gateway == Prefer(c.gateway, b.gateway, root.gateway)
      && f.cdn == Prefer(c.cdn, b.cdn, root.cdn)
      && f.credentialsPath == Prefer("", b.credentialsPath, root.credentialsPath)
      && f.skRouteTag == Prefer("", b.skRouteTag, root.skRouteTag)
      && f.channelVersion == Prefer("", b.channelVersion, root.channelVersion)
      && f.allowFrom == (if b.allowFrom == [] then root.allowFrom else b.allowFrom)
      && var account := Prefer(c.accountID, b.accountID, root.accountID);
         f.accountID == if Blank(account) then "default" else account
  {
    assert Blank("") && !Blank("default");
    TrimTwice(Overlaid(b, root, read).accountID);
    hide TrimSpace, ValidId;
  }

  // --------------------------------------------------------- one cursor per bot

  /** The account whose cursor file a bot with this configuration uses. */
  function Account(b: BotConfig, root: BotConfig, read: string -> Option<Credentials>): (r: string) {
    var a := TrimSpace(Prefer(Overlaid(b, root, read).accountID, b.accountID, root.accountID));
    if a == "" then "default" else a
  }

  lemma AccountOfFinal(b: BotConfig, root: BotConfig, read: string -> Option<Credentials>)
    requires FinalBot(b, root, read).Ok?
    ensures TrimSpace(FinalBot(b, root, read).value.accountID) == Account(b, root, read)
  {
    hide TrimSpace, FinalBot, Prefer, Overlaid, Or;
    Precedence(b, root, read);
    DefaultTrimmed();
  }

  lemma DefaultTrimmed()
    ensures TrimSpace("default") == "default"
  {
  }

  /** The bots of an accepted configuration keep their cursors apart exactly when the accounts they are
      given, by file, by themselves or by the root, differ, blank ones all being "default". */
  lemma CursorsApartWhen(given: seq<BotConfig>, root: BotConfig, read: string -> Option<Credentials>,
                         bots: seq<BotConfig>)
    requires Finalizes(given, root, read, bots) && ValidBots(bots)
    ensures (forall i, j | 0 <= i < j < |bots| :: TrimSpace(bots[i].accountID) != TrimSpace(bots[j].accountID))
       <==> (forall i, j | 0 <= i < j < |given| :: Account(given[i], root, read) != Account(given[j], root, read))
  {
    hide TrimSpace, FinalBot, Account, ValidBots;
    forall i | 0 <= i < |given| ensures TrimSpace(bots[i].accountID) == Account(given[i], root, read) {
      AccountOfFinal(given[i], root, read);
    }
  }

  function Plainest(id: string): (b: BotConfig) {
    EMPTY.(id := id, gateway := "g", token := "t")
  }

  lemma PlainestFinal(id: string, read: string -> Option<Credentials>)
    requires id == "a" || id == "b"
    ensures FinalBot(Plainest(id), EMPTY, read) == Ok(Plainest(id).(accountID := "default"))
  {
    assert TrimSpace("") == "" && TrimSpace(id) == id && TrimSpace("g") == "g" && TrimSpace("t") == "t" && ValidId(id);
    hide TrimSpace, ValidId;
  }

  lemma PlainestLabel(id: string)
    requires id == "a" || id == "b"
    ensures TrimSpace(id) == id && !Blank("g") && !Blank("t")
  {
  }

  /** Two bots with different ids and no account id are accepted and share one cursor. */
  lemma SharedCursor(read: string -> Option<Credentials>)
    ensures exists bots: seq<BotConfig> ::
      && Finalizes([Plainest("a"), Plainest("b")], EMPTY, read, bots) && ValidBots(bots) && |bots| == 2
      && TrimSpace(bots[0].accountID) == TrimSpace(bots[1].accountID)
  {
    hide TrimSpace, ValidId, FinalBot;
    var bots := [Plainest("a").(accountID := "default"), Plainest("b").(accountID := "default")];
    PlainestFinal("a", read);
    PlainestFinal("b", read);
    PlainestLabel("a");
    PlainestLabel("b");
    assert Finalizes([Plainest("a"), Plainest("b")], EMPTY, read, bots);
    assert Labels(bots)[0] == "a" && Labels(bots)[1] == "b";
    assert ValidBots(bots);
  }

  // ------------------------------------------------------- from config to bots

  function BotOf(b: BotConfig): (r: Result<Settings>)
    ensures r.Ok? && Blank(b.accountID) ==> r.value.accountID == "default"
  {
    match SanitizeLoginID(b.id)
    case Err => Err
    case Ok(id) =>
      Ok(Settings(id, TrimSpace(b.gateway), TrimSpace(b.cdn), TrimSpace(b.token), TrimSpace(b.skRouteTag),
                  TrimSpace(b.channelVersion), if Blank(b.accountID) then "default" else TrimSpace(b.accountID),
                  b.allowFrom))
  }

  lemma FirstOf(a: string, rest: seq<string>)
    ensures FirstNonBlank([a] + rest) == if TrimSpace(a) != "" then TrimSpace(a) else FirstNonBlank(rest)
  {
    hide TrimSpace;
    assert ([a] + rest)[1..] == rest;
  }

  lemma FirstOfThree(a: string, b: string, c: string)
    ensures TrimSpace(Prefer(a, b, c)) == FirstNonBlank([a, b, c])
  {
    hide TrimSpace, FirstNonBlank;
    TrimTwice(a);
    FirstOf(a, [b, c]);
    FirstOf(b, [c]);
    FirstOf(c, []);
    assert FirstNonBlank([]) == "" by { FirstNonBlankIs([]); }
    assert [a] + [b, c] == [a, b, c] && [b] + [c] == [b, c] && [c] + [] == [c];
  }

  lemma FirstOfFour(a: string, b: string, c: string)
    ensures FirstNonBlank([a, b, c, "default"])
      == if FirstNonBlank([a, b, c]) == "" then "default" else FirstNonBlank([a, b, c])
  {
    hide TrimSpace, FirstNonBlank;
    DefaultTrimmed();
    FirstOf(a, [b, c, "default"]);
    FirstOf(b, [c, "default"]);
    FirstOf(c, ["default"]);
    FirstOf("default", []);
    FirstOf(a, [b, c]);
    FirstOf(b, [c]);
    FirstOf(c, []);
    assert FirstNonBlank([]) == "" by { FirstNonBlankIs([]); }
    assert [a] + [b, c, "default"] == [a, b, c, "default"] && [b] + [c, "default"] == [b, c, "default"]
      && [c] + ["default"] == [c, "default"] && ["default"] + [] == ["default"];
    assert [a] + [b, c] == [a, b, c] && [b] + [c] == [b, c] && [c] + [] == [c];
  }

  /** What a bot of an accepted configuration works with: for the gateway, the CDN and the token the first that is
      not blank of the credentials file's, its own and the root's; for the account also "default"; for the route
      tag and the channel version its own or the root's; and its own allow list unless that is empty. */
  lemma BotSettings(b: BotConfig, root: BotConfig, read: string -> Option<Credentials>)
    requires FinalBot(b, root, read).Ok? && BotOf(FinalBot(b, root, read).value).Ok?
    ensures var x, c := BotOf(FinalBot(b, root, read).value).value, Overlaid(b, root, read);
      && x.gateway == FirstNonBlank([c.gateway, b.gateway, root.gateway])
      && x.cdn == FirstNonBlank([c.cdn, b.cdn, root.cdn])
      && x.token == FirstNonBlank([c.token, b.token, root.token])
      && x.accountID == FirstNonBlank([c.accountID, b.accountID, root.accountID, "default"])
      && x.skRouteTag == FirstNonBlank(["", b.skRouteTag, root.skRouteTag])
      && x.channelVersion == FirstNonBlank(["", b.channelVersion, root.channelVersion])
      && x.allowFrom == (if b.allowFrom == [] then root.allowFrom else b.allowFrom)
  {
    hide TrimSpace, Prefer, Overlaid, FinalBot, FirstNonBlank, Or;
    var c := Overlaid(b, root, read);
    Precedence(b, root, read);
    FirstOfThree(c.gateway, b.gateway, root.gateway);
    FirstOfThree(c.cdn, b.cdn, root.cdn);
    FirstOfThree(c.token, b.token, root.token);
    FirstOfThree(c.accountID, b.accountID, root.accountID);
    FirstOfFour(c.accountID, b.accountID, root.accountID);
    FirstOfThree("", b.skRouteTag, root.skRouteTag);
    FirstOfThree("", b.channelVersion, root.channelVersion);
    DefaultTrimmed();
  }

  /** A configuration that lists no bots has one, with the flat keys' settings and no id. */
  lemma FlatConfig(root: BotConfig, read: string -> Option<Credentials>, bots: seq<BotConfig>)
    requires Finalizes(Given([]), root, read, bots)
    ensures |bots| == 1 && FinalBot(BotConfig("", "", "", "", "", "", "", "", []), root, read) == Ok(bots[0])
  {
  }

  /** One bot per entry with its settings, each with an empty token store of its own. */
  ghost predicate Built(bots: seq<BotConfig>, made: seq<Bot>)
    reads set i | 0 <= i < |made| :: made[i].tokens
  {
    && |made| == |bots|
    && (forall i | 0 <= i < |made| :: BotOf(bots[i]) == Ok(made[i].settings) && made[i].tokens.byPeer == map[])
    && (forall i, j | 0 <= i < j < |made| :: made[i].tokens != made[j].tokens)
  }

  method NewWeixinBots(bots: seq<BotConfig>) returns (r: Result<seq<Bot>>)
    ensures r.Ok? <==> bots != [] && forall i | 0 <= i < |bots| :: BotOf(bots[i]).Ok?
    ensures r.Ok? ==> Built(bots, r.value)
  {
    hide BotOf;
    if |bots| == 0 { return Err; }
    var out: seq<Bot> := [];
    for i := 0 to |bots|
      invariant Built(bots[..i], out)
      invariant forall j | 0 <= j < i :: BotOf(bots[j]).Ok?
    {
      var b := BotOf(bots[i]);
      if b.Err? { return Err; }
      var made := new Bot(b.value);
      out := out + [made];
    }
    assert bots[..|bots|] == bots;
    r := Ok(out);
  }

  /** The plugin of an accepted configuration starts, in the bridge's initial state, with a valid setup. */
  method StartPlugin(bots: seq<BotConfig>, ttl: int, ghost given: seq<BotConfig>, ghost root: BotConfig,
                     ghost read: string -> Option<Credentials>)
    returns (plugin: WeixinPlugin, ghost u: Setup)
    requires given != [] && Finalizes(given, root, read, bots) && ValidBots(bots)
    ensures u.labels == Labels(bots) && u.ttl == ttl && ValidSetup(u)
    ensures plugin.Represents(u, Bridge.Init(u), [])
    ensures plugin.Labels() == Labels(bots) && plugin.dedup.ttl == ttl
  {
    AcceptedConfigHasLabels(given, root, read, bots);
    hide TrimSpace, Labels, BotOf, FinalBot, AcceptedLabels;
    var made := NewWeixinBots(bots);
    ghost var settings := seq(|bots|, i requires 0 <= i < |bots| => BotOf(bots[i]).value);
    plugin := new WeixinPlugin(made.value, ttl, settings);
    u := SetupOf(settings, ttl);
    assert u.labels == Labels(bots);
  }

  /** Every configuration that finalizing accepts builds its bots without error, and their labels are an
      accepted set: one bot with or without a label, or several with different valid ones. */
  lemma AcceptedConfigHasLabels(given: seq<BotConfig>, root: BotConfig, read: string -> Option<Credentials>,
                                bots: seq<BotConfig>)
    requires given != [] && Finalizes(given, root, read, bots) && ValidBots(bots)
    ensures forall i | 0 <= i < |bots| :: BotOf(bots[i]).Ok? && BotOf(bots[i]).value.botLabel == Labels(bots)[i]
    ensures AcceptedLabels(Labels(bots))
  {
    hide TrimSpace;
    forall i | 0 <= i < |bots|
      ensures BotOf(bots[i]).Ok? && BotOf(bots[i]).value.botLabel == Labels(bots)[i]
      ensures Labels(bots)[i] == "" || ValidId(Labels(bots)[i])
    {
      FinalIDIsLabel(given[i], root, read);
    }
  }

  lemma FinalIDIsLabel(b: BotConfig, root: BotConfig, read: string -> Option<Credentials>)
    requires FinalBot(b, root, read).Ok?
    ensures var f := FinalBot(b, root, read).value;
      SanitizeLoginID(f.id) == Ok(TrimSpace(f.id)) && (TrimSpace(f.id) == "" || ValidId(TrimSpace(f.id)))
  {
    hide TrimSpace, ValidId;
    TrimTwice(b.id);
  }

  /** For every accepted configuration, every bot and every peer, the tape printed for the peer leads back
      to that bot and that peer exactly when the bot's id is not "p2p". */
  lemma AcceptedConfigRoutes(given: seq<BotConfig>, root: BotConfig, read: string -> Option<Credentials>,
                             bots: seq<BotConfig>, i: nat, peer: string)
    requires given != [] && Finalizes(given, root, read, bots) && ValidBots(bots)
    requires i < |bots| && Trimmed(peer) && peer != ""
    ensures RouteOf(Labels(bots), TapeForPeer(peer, Labels(bots)[i])) == Some((i, peer)) <==> Labels(bots)[i] != "p2p"
  {
    AcceptedConfigHasLabels(given, root, read, bots);
    TapeRoundTrip(Labels(bots), i, peer);
  }
}
