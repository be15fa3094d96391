/** Address blocks: expired cooldowns are deleted only when asked about (server/moderation.go). */
module Moderation {
  import opened ServerState

  /** The calls made on the block tables, each with its clock reading. */
  datatype Deed = KickHost(host: string, clock: int) | BanHost(host: string, clock: int) | Ask(host: string, clock: int)

  function Do(s: Server, d: Deed): Server {
    match d
    case KickHost(host, clock) => AddKickCooldown(s, host, clock)
    case BanHost(host, _) => AddBan(s, host)
    case Ask(host, clock) => IsBlocked(s, host, clock).0
  }

  function DoAll(s: Server, deeds: seq<Deed>): Server {
    if deeds == [] then s else Do(DoAll(s, deeds[..|deeds| - 1]), deeds[|deeds| - 1])
  }

  /** The clock never goes back. */
  predicate Forward(deeds: seq<Deed>) { forall i, j :: 0 <= i < j < |deeds| ==> deeds[i].clock <= deeds[j].clock }

  /** The host was banned at some point, or kicked less than the cooldown before the given time. */
  ghost predicate EverBanned(deeds: seq<Deed>, host: string) { exists t :: BanHost(host, t) in deeds }

  ghost predicate KickedLately(deeds: seq<Deed>, host: string, clock: int) {
    exists t :: KickHost(host, t) in deeds && clock < t + KICK_SECONDS
  }

  predicate Cooling(s: Server, deeds: seq<Deed>, host: string) {
    host in s.kicked ==> KickHost(host, s.kicked[host] - KICK_SECONDS) in deeds
  }

  predicate Remembered(s: Server, d: Deed, clock: int) {
    d.KickHost? && clock < d.clock + KICK_SECONDS ==> d.host in s.kicked && d.clock + KICK_SECONDS <= s.kicked[d.host]
  }

  /** The tables hold every ban, the newest kick of every cooling host, and no other kick. */
  ghost predicate Tables(s: Server, deeds: seq<Deed>, clock: int) {
    && (forall host :: host in s.banned <==> EverBanned(deeds, host))
    && (forall host :: Cooling(s, deeds, host))
    && (forall d <- deeds :: Remembered(s, d, clock))
  }

  lemma {:induction false} TablesAfter(admins: set<string>, deeds: seq<Deed>, clock: int)
    requires Forward(deeds) && forall d <- deeds :: d.clock <= clock
    ensures Tables(DoAll(Fresh(admins), deeds), deeds, clock)
  {
    if deeds != [] {
      var init, d := deeds[..|deeds| - 1], deeds[|deeds| - 1];
      assert deeds == init + [d] && d in deeds;
      forall e | e in init ensures e.clock <= d.clock {
        var i :| 0 <= i < |init| && init[i] == e;
        assert deeds[i] == e;
      }
      TablesAfter(admins, init, d.clock);
      OneDeed(DoAll(Fresh(admins), init), init, d, clock);
    }
  }

  lemma OneDeed(s: Server, init: seq<Deed>, d: Deed, clock: int)
    requires Tables(s, init, d.clock) && d.clock <= clock && forall e <- init :: e.clock <= d.clock
    ensures Tables(Do(s, d), init + [d], clock)
  {
    hide EverBanned, Cooling, Remembered, Do;
    forall host ensures host in Do(s, d).banned <==> EverBanned(init + [d], host) { OneBan(s, init, d, host); }
    forall host ensures Cooling(Do(s, d), init + [d], host) { OneCooling(s, init, d, host); }
    forall e | e in init + [d] ensures Remembered(Do(s, d), e, clock) {
      if e in init { OneRemembered(s, e, d, clock); } else { NewRemembered(s, d, clock); }
    }
  }

  lemma OneBan(s: Server, init: seq<Deed>, d: Deed, host: string)
    requires host in s.banned <==> EverBanned(init, host)
    ensures host in Do(s, d).banned <==> EverBanned(init + [d], host)
  {
    var deeds := init + [d];
    if EverBanned(deeds, host) {
      var x :| BanHost(host, x) in deeds;
      assert BanHost(host, x) in init || d == BanHost(host, x);
    }
    if EverBanned(init, host) {
      var x :| BanHost(host, x) in init;
      assert BanHost(host, x) in deeds;
    }
    if d.BanHost? { assert d in deeds && d == BanHost(d.host, d.clock); }
  }

  lemma OneCooling(s: Server, init: seq<Deed>, d: Deed, host: string)
    requires Cooling(s, init, host)
    ensures Cooling(Do(s, d), init + [d], host)
  {
    assert d in init + [d];
  }

  lemma OneRemembered(s: Server, e: Deed, d: Deed, clock: int)
    requires Remembered(s, e, d.clock) && e.clock <= d.clock <= clock
    ensures Remembered(Do(s, d), e, clock)
  {
  }

  lemma NewRemembered(s: Server, d: Deed, clock: int)
    ensures Remembered(Do(s, d), d, clock)
  {
  }

  /** The lazily cleaned tables answer as the full history would, whatever was asked before. */
  lemma LazyExpiryIsExact(admins: set<string>, deeds: seq<Deed>, host: string, clock: int)
    requires Forward(deeds) && forall d <- deeds :: d.clock <= clock
    ensures IsBlocked(DoAll(Fresh(admins), deeds), host, clock).1 <==>
              EverBanned(deeds, host) || KickedLately(deeds, host, clock)
  {
    hide DoAll, EverBanned;
    TablesAfter(admins, deeds, clock);
    var s := DoAll(Fresh(admins), deeds);
    assert Cooling(s, deeds, host);
    if KickedLately(deeds, host, clock) {
      var t :| KickHost(host, t) in deeds && clock < t + KICK_SECONDS;
      assert Remembered(s, KickHost(host, t), clock);
    }
  }

  function WithoutAsks(deeds: seq<Deed>): (r: seq<Deed>)
  {
    if deeds == [] then []
    else
      var rest := WithoutAsks(deeds[..|deeds| - 1]);
      if deeds[|deeds| - 1].Ask? then rest else rest + [deeds[|deeds| - 1]]
  }

  lemma {:induction false} AsksAside(deeds: seq<Deed>)
    ensures forall d :: d in WithoutAsks(deeds) <==> d in deeds && !d.Ask?
    ensures Forward(deeds) ==> Forward(WithoutAsks(deeds))
  {
    if deeds != [] {
      var init, d := deeds[..|deeds| - 1], deeds[|deeds| - 1];
      AsksAside(init);
      assert deeds == init + [d];
      if Forward(deeds) {
        forall e | e in WithoutAsks(init) ensures e.clock <= d.clock {
          var i :| 0 <= i < |init| && init[i] == e;
          assert deeds[i] == e;
        }
      }
    }
  }

  /** Earlier questions never change a later answer, although each may delete an entry. */
  lemma AskingChangesNothing(admins: set<string>, deeds: seq<Deed>, host: string, clock: int)
    requires Forward(deeds) && forall d <- deeds :: d.clock <= clock
    ensures IsBlocked(DoAll(Fresh(admins), deeds), host, clock).1
         == IsBlocked(DoAll(Fresh(admins), WithoutAsks(deeds)), host, clock).1
  {
    AsksAside(deeds);
    LazyExpiryIsExact(admins, deeds, host, clock);
    LazyExpiryIsExact(admins, WithoutAsks(deeds), host, clock);
    forall t ensures BanHost(host, t) in deeds <==> BanHost(host, t) in WithoutAsks(deeds) { }
    forall t ensures KickHost(host, t) in deeds <==> KickHost(host, t) in WithoutAsks(deeds) { }
  }
}
