/**
 * The volunteer rota of stormbot/volunteer.py: roles that recur with a fixed
 * period, and a picker that names one volunteer per role and remembers it.
 *
 * Instants and durations are integer microseconds; the clock reading and
 * the random draw are parameters.
 */
module Volunteer {
  import opened Wrappers

  const MicrosPerSecond: int := 1000000
  const MicrosPerDay: int := 86400 * MicrosPerSecond

  /** 2017-05-29T00:00 and 2017-05-29T11:45, as microseconds since 1970-01-01T00:00. */
  const GrandPedestreStart: int := 1496016000000000
  const SemiCroustillantStart: int := 1496058300000000
  /** P1W and PT24H. */
  const OneWeek: int := 7 * MicrosPerDay
  const OneDay: int := MicrosPerDay

  datatype Role = Role(name: string, start: int, duration: int)

  /** A volunteer and the start of the period they were picked for. */
  datatype Volunteer = Volunteer(name: string, role: Role, start: int)

  datatype RunError =
    | NoSuchRole       // `next` on an empty generator: StopIteration
    | NoCandidates     // `random.choice([])`: IndexError
    | ZeroDuration     // `timedelta / timedelta(0)`: ZeroDivisionError

  /** `math.floor(a / b)` for a non-zero divisor. */
  function FloorDiv(a: int, b: int): (q: int)
    requires b != 0
    ensures b > 0 ==> q * b <= a < q * b + b
    ensures b < 0 ==> q * b >= a > q * b + b
  {
    if b > 0 then a / b else (-a) / (-b)
  }

  /**
   * `Role.last_start`: the start of the period that contains `now`,
   * counting whole periods from the role's first start.
   */
  function LastStart(role: Role, now: int): (r: Option<int>)
    ensures r.None? <==> role.duration == 0
  {
    if role.duration == 0 then None
    else Some(FloorDiv(now - role.start, role.duration) * role.duration + role.start)
  }

  /** For a positive period, `now` lies in the period that starts at `last_start(now)`. */
  lemma LastStartBounds(role: Role, now: int)
    requires role.duration > 0
    ensures LastStart(role, now).Some?
    ensures LastStart(role, now).value <= now < LastStart(role, now).value + role.duration
  {
    var q := FloorDiv(now - role.start, role.duration);
    assert q * role.duration <= now - role.start < q * role.duration + role.duration;
  }

  /** Every period start is a whole number of periods after the first. */
  lemma LastStartMultiple(role: Role, now: int)
    requires role.duration != 0
    ensures (LastStart(role, now).value - role.start) % role.duration == 0
  {
    var q := FloorDiv(now - role.start, role.duration);
    MultipleMod(q, role.duration);
  }

  lemma MultipleMod(q: int, d: int)
    requires d != 0
    ensures (q * d) % d == 0
  {
    var r := (q * d) % d;
    var p := (q * d) / d;
    assert q * d == p * d + r && 0 <= r < if d > 0 then d else -d;
    assert (q - p) * d == r;
    if q != p {
      assert q - p >= 1 || q - p <= -1;
      if d > 0 {
        if q - p >= 1 { MulAtLeast(q - p, d); } else { MulAtLeast(p - q, d); }
      } else {
        if q - p >= 1 { MulAtLeast(q - p, -d); } else { MulAtLeast(p - q, -d); }
      }
    }
  }

  lemma MulAtLeast(k: int, d: int)
    requires k >= 1 && d > 0
    ensures k * d >= d
  {
  }

  /** A period start is its own period's start: `last_start` is idempotent. */
  lemma LastStartIdempotent(role: Role, now: int)
    requires role.duration != 0
    ensures LastStart(role, LastStart(role, now).value) == LastStart(role, now)
  {
    var d := role.duration;
    var q := FloorDiv(now - role.start, d);
    var s := LastStart(role, now).value;
    assert s - role.start == q * d;
    var q2 := FloorDiv(q * d, d);
    if d > 0 {
      assert q2 * d <= q * d < q2 * d + d;
      MulOrder(q, q2, d);
    } else {
      assert q2 * d >= q * d > q2 * d + d;
      assert q2 * (-d) <= q * (-d) < q2 * (-d) + (-d);
      MulOrder(q, q2, -d);
    }
  }

  lemma MulOrder(q: int, q2: int, d: int)
    requires d > 0
    requires q2 * d <= q * d < q2 * d + d
    ensures q == q2
  {
    var k := q - q2;
    assert k * d == q * d - q2 * d;
    SmallMultiple(k, d);
  }

  lemma SmallMultiple(k: int, d: int)
    requires d > 0 && 0 <= k * d < d
    ensures k == 0
  {
  }

  /** `Volunteer.remaining`: what is left of the volunteer's period at `now`. */
  function Remaining(v: Volunteer, now: int): (r: int)
    ensures v.role.duration > 0 && v.start <= now < v.start + v.role.duration ==> 0 < r <= v.role.duration
  {
    v.start + v.role.duration - now
  }

  /** A volunteer picked at `now` has between nothing excluded and the whole period left at `now`. */
  lemma RemainingAfterPick(name: string, role: Role, now: int)
    requires role.duration > 0
    ensures var v := Volunteer(name, role, LastStart(role, now).value);
      0 < Remaining(v, now) <= role.duration
  {
    LastStartBounds(role, now);
  }

  /** A `timedelta` split as Python normalises it. */
  datatype Span = Span(days: int, hours: nat, minutes: nat, seconds: nat, micros: nat)

  /** `timedelta(microseconds=us)`: days rounded down, the rest non-negative and below a day. */
  function SpanOf(us: int): (t: Span)
    ensures t.hours < 24 && t.minutes < 60 && t.seconds < 60 && t.micros < MicrosPerSecond
    ensures us == t.days * MicrosPerDay + ((t.hours * 60 + t.minutes) * 60 + t.seconds) * MicrosPerSecond + t.micros
    ensures t.days == 0 <==> 0 <= us < MicrosPerDay
    ensures t.micros == us % MicrosPerSecond
  {
    SecondsOfDay(us);
    var days := us / MicrosPerDay;
    var rest := us % MicrosPerDay;
    var secs := rest / MicrosPerSecond;
    Span(days, secs / 3600, (secs % 3600) / 60, secs % 60, rest % MicrosPerSecond)
  }

  /** Taking whole days off leaves the fraction of a second as it was. */
  lemma SecondsOfDay(us: int)
    ensures (us % MicrosPerDay) % MicrosPerSecond == us % MicrosPerSecond
  {
    var q := us / MicrosPerDay;
    var k := us / MicrosPerSecond;
    var m := us % MicrosPerSecond;
    var rest := us % MicrosPerDay;
    assert rest == (k - q * 86400) * MicrosPerSecond + m;
    ModUnique(rest, k - q * 86400, m);
  }

  lemma ModUnique(a: int, k: int, m: int)
    requires 0 <= m < MicrosPerSecond && a == k * MicrosPerSecond + m
    ensures a % MicrosPerSecond == m
  {
  }

  function DigitChar(d: nat): char
    requires d < 10
  {
    "0123456789"[d]
  }

  /** `"%d" % n` for a natural number. */
  function DecimalText(n: nat): (s: string)
    ensures 1 <= |s|
    ensures forall i :: 0 <= i < |s| ==> '0' <= s[i] <= '9'
    decreases n
  {
    if n < 10 then [DigitChar(n)] else DecimalText(n / 10) + [DigitChar(n % 10)]
  }

  /** `"%0<width>d" % n`. */
  function Padded(n: nat, width: nat): (s: string)
    ensures |s| >= width
    ensures forall i :: 0 <= i < |s| ==> '0' <= s[i] <= '9'
  {
    var d := DecimalText(n);
    if |d| >= width then d else seq(width - |d|, _ => '0') + d
  }

  function IntText(n: int): (s: string)
    ensures forall i :: 0 <= i < |s| ==> s[i] == '-' || '0' <= s[i] <= '9'
  {
    if n < 0 then "-" + DecimalText(-n) else DecimalText(n)
  }

  /** `str(timedelta)`: `[D day[s], ]H:MM:SS[.ffffff]`. */
  function SpanText(t: Span): (r: string)
    ensures '.' in r <==> t.micros != 0
    ensures ',' in r <==> t.days != 0
  {
    var clock := DecimalText(t.hours) + ":" + Padded(t.minutes, 2) + ":" + Padded(t.seconds, 2);
    var withDays :=
      if t.days == 0 then clock
      else IntText(t.days) + " day" + (if t.days == 1 || t.days == -1 then "" else "s") + ", " + clock;
    if t.micros == 0 then withDays else withDays + "." + Padded(t.micros, 6)
  }

  /** The one line `run` writes: "<name> is <role> for <remaining>". */
  function Announcement(v: Volunteer, now: int): (r: string)
    ensures var head := v.name + " is " + v.role.name + " for ";
      && |head| <= |r| && r[..|head|] == head
      && ('.' in r[|head|..] <==> Remaining(v, now) % MicrosPerSecond != 0)
      && (',' in r[|head|..] <==> !(0 <= Remaining(v, now) < MicrosPerDay))
  {
    var head := v.name + " is " + v.role.name + " for ";
    var r := head + SpanText(SpanOf(Remaining(v, now)));
    assert r[|head|..] == SpanText(SpanOf(Remaining(v, now)));
    r
  }

  /** A whole week reads "7 days, 0:00:00". */
  lemma WeekText()
    ensures SpanText(SpanOf(OneWeek)) == "7 days, 0:00:00"
  {
    assert SpanOf(OneWeek) == Span(7, 0, 0, 0, 0);
    WeekDays();
  }

  lemma WeekDays()
    ensures IntText(7) + " day" + "s" + ", " + (DecimalText(0) + ":" + Padded(0, 2) + ":" + Padded(0, 2))
      == "7 days, 0:00:00"
  {
    assert DecimalText(0) == "0" && DecimalText(7) == "7";
    assert Padded(0, 2) == "00";
  }

  lemma MinusOneSpan()
    ensures SpanOf(-1) == Span(-1, 23, 59, 59, 999999)
  {
    assert -1 / MicrosPerDay == -1 && -1 % MicrosPerDay == MicrosPerDay - 1;
  }

  lemma SixNines()
    ensures Padded(999999, 6) == "999999"
  {
    assert DecimalText(99) == "99";
    assert DecimalText(9999) == "9999";
    assert DecimalText(999999) == "999999";
  }

  /** One microsecond before nothing reads "-1 day, 23:59:59.999999", as Python prints it. */
  lemma MinusOneText()
    ensures SpanText(SpanOf(-1)) == "-1 day, 23:59:59.999999"
  {
    MinusOneSpan();
    SixNines();
    MinusOneDays();
    assert "-1 day, 23:59:59" + "." + "999999" == "-1 day, 23:59:59.999999";
  }

  lemma MinusOneDays()
    ensures IntText(-1) + " day" + "" + ", " + (DecimalText(23) + ":" + Padded(59, 2) + ":" + Padded(59, 2))
      == "-1 day, 23:59:59"
  {
    assert IntText(-1) == "-1";
    assert DecimalText(23) == "23";
    assert Padded(59, 2) == "59";
  }

  /** The roster without the bot's own nick, in roster order. */
  function Candidates(roster: seq<string>, botNick: string): (c: seq<string>)
    ensures forall x :: x in c <==> x in roster && x != botNick
    ensures |c| <= |roster|
  {
    if roster == [] then []
    else
      var rest := Candidates(roster[1..], botNick);
      assert forall x :: x in roster <==> x == roster[0] || x in roster[1..];
      if roster[0] == botNick then rest else [roster[0]] + rest
  }

  /** The first role with the given name (`next(role for role in roles if ...)`). */
  function FindRole(roles: seq<Role>, name: string): (r: Option<Role>)
    ensures r.Some? ==> r.value in roles && r.value.name == name
    ensures r.None? ==> forall i :: 0 <= i < |roles| ==> roles[i].name != name
  {
    if roles == [] then None
    else if roles[0].name == name then Some(roles[0])
    else FindRole(roles[1..], name)
  }

  class VolunteerPicker {
    const roles: seq<Role>
    /** The memo: the volunteer picked for each role so far. */
    var volunteers: map<Role, Volunteer>

    /** Each remembered volunteer was picked for the role it is filed under. */
    ghost predicate Valid()
      reads this
    {
      forall r :: r in volunteers ==> volunteers[r].role == r
    }

    constructor ()
      ensures roles == [Role("Grand-Pedestre", GrandPedestreStart, OneWeek),
                        Role("Semi-Croustillant", SemiCroustillantStart, OneDay)]
      ensures volunteers == map[]
      ensures Valid()
    {
      roles := [Role("Grand-Pedestre", GrandPedestreStart, OneWeek),
                Role("Semi-Croustillant", SemiCroustillantStart, OneDay)];
      volunteers := map[];
    }

    /**
     * `pick`: a random member of the roster other than the bot, recorded for
     * the role with the start of the current period. `draw` is the random
     * choice among the candidates.
     */
    method Pick(role: Role, roster: seq<string>, botNick: string, now: int, draw: nat) returns (r: Result<Volunteer, RunError>)
      requires Valid()
      modifies this`volunteers
      ensures Valid()
      ensures Candidates(roster, botNick) == [] <==> r == Err(NoCandidates)
      ensures r.Ok? <==> Candidates(roster, botNick) != [] && role.duration != 0
      ensures r.Err? ==> volunteers == old(volunteers)
      ensures r.Ok? ==> r.value.name in roster && r.value.name != botNick
      ensures r.Ok? ==> r.value.role == role && Some(r.value.start) == LastStart(role, now)
      ensures r.Ok? ==> volunteers == old(volunteers)[role := r.value]
      ensures r == Err(ZeroDuration) <==> Candidates(roster, botNick) != [] && role.duration == 0
    {
      var candidates := Candidates(roster, botNick);
      if candidates == [] {
        return Err(NoCandidates);
      }
      var name := candidates[draw % |candidates|];
      match LastStart(role, now) {
        case None =>
          r := Err(ZeroDuration);
        case Some(start) =>
          var v := Volunteer(name, role, start);
          volunteers := volunteers[role := v];
          r := Ok(v);
      }
    }

    /**
     * `run`: the role's volunteer, picked on first use and reused afterwards,
     * announced in one line.
     */
    method Run(roleName: string, roster: seq<string>, botNick: string, now: int, draw: nat) returns (r: Result<string, RunError>)
      requires Valid()
      modifies this`volunteers
      ensures Valid()
      ensures FindRole(roles, roleName).None? ==> r == Err(NoSuchRole) && volunteers == old(volunteers)
      ensures FindRole(roles, roleName).Some? && FindRole(roles, roleName).value in old(volunteers) ==>
        var role := FindRole(roles, roleName).value;
        && volunteers == old(volunteers) && old(volunteers)[role].role == role
        && r == Ok(Announcement(old(volunteers)[role], now))
      ensures FindRole(roles, roleName).Some? && FindRole(roles, roleName).value !in old(volunteers) ==>
        var role := FindRole(roles, roleName).value;
        && (r.Err? <==> Candidates(roster, botNick) == [] || role.duration == 0)
        && (r.Err? ==> volunteers == old(volunteers))
        && (r.Ok? ==> role in volunteers && volunteers == old(volunteers)[role := volunteers[role]])
        && (r.Ok? ==> var v := volunteers[role];
              && v.name in roster && v.name != botNick && v.role == role
              && Some(v.start) == LastStart(role, now)
              && r.value == Announcement(v, now))
      ensures r.Ok? ==> FindRole(roles, roleName).Some?
      ensures r.Ok? ==>
        var v := volunteers[FindRole(roles, roleName).value];
        var head := v.name + " is " + roleName + " for ";
        |head| <= |r.value| && r.value[..|head|] == head
    {
      var found := FindRole(roles, roleName);
      if found.None? {
        return Err(NoSuchRole);
      }
      var role := found.value;
      if role !in volunteers {
        var picked := Pick(role, roster, botNick, now, draw);
        if picked.Err? {
          return Err(picked.error);
        }
      }
      var v := volunteers[role];
      r := Ok(Announcement(v, now));
    }
  }
}
