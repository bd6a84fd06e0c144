/**
 * The `Options` base class of simulations/options.py: five contract
 * parameters stored as fields and in an insertion-ordered table, and the
 * rule set `validate` runs over that table when the object is built.
 *
 * Python accepts any value for a parameter, so a parameter is a `Value`:
 * an int or float, some other type that still compares with 0 (a numpy
 * integer, a Fraction), or a value that does not compare with 0 at all (a
 * string, None), for which `val <= 0` raises TypeError. The messages
 * `validate` prints are returned instead, in print order.
 */
module Options {
  import opened Basics

  datatype Value =
    | Number(x: real)      // an int or a float (bool included, being an int)
    | NumberLike(x: real)  // not an int or float, but ordered against 0
    | Unordered            // `val <= 0` raises TypeError

  const StrikeKey := "Strike price"
  const VolatilityKey := "Volatility"
  const RateKey := "Risk-free Rate"
  const TimeKey := "Time to Maturity"
  const InitialKey := "Initial Price"
  const TimestepsKey := "Timesteps"

  type Entry = (string, Value)

  /** The parameter table `__init__` builds, in insertion order. */
  function Table(strike: Value, vol: Value, rf: Value, time: Value, init: Value): seq<Entry>
  {
    [(StrikeKey, strike), (VolatilityKey, vol), (RateKey, rf), (TimeKey, time), (InitialKey, init)]
  }

  function Keys(table: seq<Entry>): (r: seq<string>)
    ensures |r| == |table|
    ensures forall i :: 0 <= i < |table| ==> r[i] == table[i].0
  {
    seq(|table|, i requires 0 <= i < |table| => table[i].0)
  }

  /** The dictionary read `table[key]`: the value of the first entry with that key. */
  function Lookup(table: seq<Entry>, key: string): (r: Option<Value>)
    ensures r.None? <==> key !in Keys(table)
  {
    if table == [] then None
    else if table[0].0 == key then Some(table[0].1)
    else
      assert Keys(table) == [table[0].0] + Keys(table[1..]);
      Lookup(table[1..], key)
  }

  /** The dictionary write `table[key] = v`: an existing key keeps its place, a new key goes last. */
  function SetEntry(table: seq<Entry>, key: string, v: Value): (r: seq<Entry>)
  {
    if table == [] then [(key, v)]
    else if table[0].0 == key then [(key, v)] + table[1..]
    else [table[0]] + SetEntry(table[1..], key, v)
  }

  /** After a write, the key reads back the new value. */
  lemma {:induction false} SetEntryLookup(table: seq<Entry>, key: string, v: Value)
    ensures Lookup(SetEntry(table, key, v), key) == Some(v)
  {
    if table != [] && table[0].0 != key {
      SetEntryLookup(table[1..], key, v);
      var r := SetEntry(table, key, v);
      assert r[0] == table[0] && r[1..] == SetEntry(table[1..], key, v);
    }
  }

  /** A write leaves every other key reading as before. */
  lemma {:induction false} SetEntryLookupOther(table: seq<Entry>, key: string, v: Value, other: string)
    requires other != key
    ensures Lookup(SetEntry(table, key, v), other) == Lookup(table, other)
  {
    if table != [] && table[0].0 != key {
      SetEntryLookupOther(table[1..], key, v, other);
      var r := SetEntry(table, key, v);
      assert r[0] == table[0] && r[1..] == SetEntry(table[1..], key, v);
    }
  }

  /** The keys of a non-empty table: the first key, then the keys of the rest. */
  lemma KeysCons(table: seq<Entry>)
    requires table != []
    ensures Keys(table) == [table[0].0] + Keys(table[1..])
  {
  }

  /** A write keeps the key order, appending the key only when it is new. */
  lemma {:induction false} SetEntryKeys(table: seq<Entry>, key: string, v: Value)
    ensures Keys(SetEntry(table, key, v)) == if key in Keys(table) then Keys(table) else Keys(table) + [key]
  {
    if table != [] {
      var r := SetEntry(table, key, v);
      KeysCons(table);
      KeysCons(r);
      if table[0].0 == key {
        assert r[1..] == table[1..];
      } else {
        var rest := table[1..];
        assert r[1..] == SetEntry(rest, key, v);
        SetEntryKeys(rest, key, v);
        assert key in Keys(table) <==> key in Keys(rest);
      }
    }
  }

  /** Writing a key the table does not hold appends it. */
  lemma {:induction false} SetEntryAppends(table: seq<Entry>, key: string, v: Value)
    requires key !in Keys(table)
    ensures SetEntry(table, key, v) == table + [(key, v)]
  {
    if table != [] {
      KeysCons(table);
      SetEntryAppends(table[1..], key, v);
      assert table == [table[0]] + table[1..];
    }
  }

  /** The base table holds the five keys in order, and not 'Timesteps'. */
  lemma TableKeys(strike: Value, vol: Value, rf: Value, time: Value, init: Value)
    ensures Keys(Table(strike, vol, rf, time, init)) == [StrikeKey, VolatilityKey, RateKey, TimeKey, InitialKey]
    ensures TimestepsKey !in Keys(Table(strike, vol, rf, time, init))
  {
    var keys := Keys(Table(strike, vol, rf, time, init));
    assert keys == [StrikeKey, VolatilityKey, RateKey, TimeKey, InitialKey];
    assert TimestepsKey[0] == 'T' && StrikeKey[0] == 'S' && VolatilityKey[0] == 'V' && RateKey[0] == 'R' && InitialKey[0] == 'I';
    assert TimestepsKey[1] == 'i' && TimeKey[1] == 'i' && TimestepsKey[4] == 's' && TimeKey[4] == ' ';
  }

  /** Writing a key twice leaves the table as the second write alone would. */
  lemma {:induction false} SetEntryTwice(table: seq<Entry>, key: string, a: Value, b: Value)
    ensures SetEntry(SetEntry(table, key, a), key, b) == SetEntry(table, key, b)
  {
    if table != [] && table[0].0 != key {
      SetEntryTwice(table[1..], key, a, b);
      var once := SetEntry(table, key, a);
      assert once[0] == table[0] && once[1..] == SetEntry(table[1..], key, a);
    }
  }

  /** A printed message of `validate`. */
  datatype Warning = NotANumber(key: string) | LessThanZero(key: string)

  function Message(w: Warning): string
  {
    match w
    case NotANumber(key) => key + " is not a number!"
    case LessThanZero(key) => key + " is less than 0."
  }

  function Messages(ws: seq<Warning>): (r: seq<string>)
    ensures |r| == |ws|
    ensures forall i :: 0 <= i < |ws| ==> r[i] == Message(ws[i])
  {
    seq(|ws|, i requires 0 <= i < |ws| => Message(ws[i]))
  }

  /** Printing two runs of warnings one after the other prints their messages one after the other. */
  lemma MessagesAppend(a: seq<Warning>, b: seq<Warning>)
    ensures Messages(a + b) == Messages(a) + Messages(b)
  {
    var l, r := Messages(a + b), Messages(a) + Messages(b);
    assert |l| == |r|;
    forall i | 0 <= i < |l|
      ensures l[i] == r[i]
    {
      if i < |a| {
        assert (a + b)[i] == a[i];
      } else {
        assert (a + b)[i] == b[i - |a|];
      }
    }
  }

  /** What a run of `validate` did: the warnings it printed, and the exception that ended it, if any. */
  datatype Report = Report(warnings: seq<Warning>, error: Option<Error>)

  /** `validate` on one entry: the type test, then the sign test, which skips the rate. */
  function Check(key: string, val: Value): Report
  {
    var typed := if val.Number? then [] else [NotANumber(key)];
    if key == RateKey then Report(typed, None)
    else if val.Unordered? then Report(typed, Some(TypeError))
    else Report(typed + (if val.x <= 0.0 then [LessThanZero(key)] else []), None)
  }

  /** Running `b` after `a`: nothing runs after an exception. */
  function Then(a: Report, b: Report): (r: Report)
    ensures a.error.Some? ==> r == a
    ensures a.error.None? ==> r.warnings == a.warnings + b.warnings && r.error == b.error
  {
    if a.error.Some? then a else Report(a.warnings + b.warnings, b.error)
  }

  lemma ThenAssociative(a: Report, b: Report, c: Report)
    ensures Then(Then(a, b), c) == Then(a, Then(b, c))
  {
    if a.error.None? && b.error.None? {
      assert (a.warnings + b.warnings) + c.warnings == a.warnings + (b.warnings + c.warnings);
    }
  }

  /** `validate` over a table, entry by entry in insertion order. */
  function Validation(table: seq<Entry>): Report
  {
    if table == [] then Report([], None)
    else Then(Validation(table[..|table| - 1]), Check(table[|table| - 1].0, table[|table| - 1].1))
  }

  /** Validating two tables one after the other is validating their concatenation. */
  lemma {:induction false} ValidationAppend(a: seq<Entry>, b: seq<Entry>)
    ensures Validation(a + b) == Then(Validation(a), Validation(b))
  {
    if b == [] {
      assert a + b == a;
    } else {
      var last := b[|b| - 1];
      assert (a + b)[..|a + b| - 1] == a + b[..|b| - 1];
      ValidationAppend(a, b[..|b| - 1]);
      ThenAssociative(Validation(a), Validation(b[..|b| - 1]), Check(last.0, last.1));
    }
  }

  /**
   * When the first part of a table does not raise, `validate` over the whole
   * table prints the first part's messages, then the rest's, in table order.
   */
  lemma PrintedInOrder(a: seq<Entry>, b: seq<Entry>)
    requires Validation(a).error.None?
    ensures Messages(Validation(a + b).warnings) ==
            Messages(Validation(a).warnings) + Messages(Validation(b).warnings)
    ensures Validation(a + b).error == Validation(b).error
  {
    ValidationAppend(a, b);
    MessagesAppend(Validation(a).warnings, Validation(b).warnings);
  }

  /** Once a prefix raised, the rest of the table is never looked at. */
  lemma RaisedPrefix(table: seq<Entry>, i: nat)
    requires i <= |table|
    requires Validation(table[..i]).error.Some?
    ensures Validation(table) == Validation(table[..i])
  {
    assert table == table[..i] + table[i..];
    ValidationAppend(table[..i], table[i..]);
  }

  /** An entry whose sign test raises TypeError. */
  predicate Raises(e: Entry)
  {
    e.0 != RateKey && e.1.Unordered?
  }

  /** `validate` raises exactly when some non-rate entry does not compare with 0, and then raises TypeError. */
  lemma {:induction false} ValidationRaises(table: seq<Entry>)
    ensures Validation(table).error.Some? <==> exists i :: 0 <= i < |table| && Raises(table[i])
    ensures Validation(table).error.Some? ==> Validation(table).error.value == TypeError
  {
    if table != [] {
      var init := table[..|table| - 1];
      ValidationRaises(init);
      if exists i :: 0 <= i < |init| && Raises(init[i]) {
        var i :| 0 <= i < |init| && Raises(init[i]);
        assert table[i] == init[i];
      }
      if exists i :: 0 <= i < |table| && Raises(table[i]) {
        var i :| 0 <= i < |table| && Raises(table[i]);
        if i < |init| {
          assert init[i] == table[i];
        }
      }
    }
  }

  /** A value that compares with 0 and is not above it. */
  predicate AtMostZero(v: Value)
  {
    !v.Unordered? && v.x <= 0.0
  }

  /**
   * In a table that does not raise, a key gets the sign warning exactly when
   * it is not the rate and one of its values is 0 or below.
   */
  lemma {:induction false} SignWarning(table: seq<Entry>, key: string)
    requires forall i :: 0 <= i < |table| ==> !Raises(table[i])
    ensures LessThanZero(key) in Validation(table).warnings <==>
            key != RateKey && exists i :: 0 <= i < |table| && table[i].0 == key && AtMostZero(table[i].1)
  {
    if table != [] {
      var init := table[..|table| - 1];
      var last := table[|table| - 1];
      assert forall i :: 0 <= i < |init| ==> init[i] == table[i];
      SignWarning(init, key);
      ValidationRaises(init);
      var w := Validation(table).warnings;
      assert w == Validation(init).warnings + Check(last.0, last.1).warnings;
      if key != RateKey && exists i :: 0 <= i < |table| && table[i].0 == key && AtMostZero(table[i].1) {
        var i :| 0 <= i < |table| && table[i].0 == key && AtMostZero(table[i].1);
        if i < |init| {
          assert init[i] == table[i];
        } else {
          assert LessThanZero(key) in Check(last.0, last.1).warnings;
        }
      }
      if LessThanZero(key) in w && LessThanZero(key) !in Validation(init).warnings {
        assert LessThanZero(key) in Check(last.0, last.1).warnings;
        assert table[|table| - 1] == last;
      }
    }
  }

  /** The rate never gets the sign warning, whatever its value. */
  lemma {:induction false} RateNeverSignWarns(table: seq<Entry>)
    ensures LessThanZero(RateKey) !in Validation(table).warnings
  {
    if table != [] {
      RateNeverSignWarns(table[..|table| - 1]);
    }
  }

  /**
   * In a table that does not raise, a key gets the type warning exactly when
   * one of its values is not an int or float.
   */
  lemma {:induction false} TypeWarning(table: seq<Entry>, key: string)
    requires forall i :: 0 <= i < |table| ==> !Raises(table[i])
    ensures NotANumber(key) in Validation(table).warnings <==>
            exists i :: 0 <= i < |table| && table[i].0 == key && !table[i].1.Number?
  {
    if table != [] {
      var init := table[..|table| - 1];
      var last := table[|table| - 1];
      assert forall i :: 0 <= i < |init| ==> init[i] == table[i];
      TypeWarning(init, key);
      ValidationRaises(init);
      var w := Validation(table).warnings;
      assert w == Validation(init).warnings + Check(last.0, last.1).warnings;
      if exists i :: 0 <= i < |table| && table[i].0 == key && !table[i].1.Number? {
        var i :| 0 <= i < |table| && table[i].0 == key && !table[i].1.Number?;
        if i < |init| {
          assert init[i] == table[i];
        } else {
          assert NotANumber(key) in Check(last.0, last.1).warnings;
        }
      }
      if NotANumber(key) in w && NotANumber(key) !in Validation(init).warnings {
        assert NotANumber(key) in Check(last.0, last.1).warnings;
        assert table[|table| - 1] == last;
      }
    }
  }

  /** The sign warning a non-rate numeric entry gets. */
  function SignFlag(key: string, x: real): seq<Warning>
  {
    if x <= 0.0 then [LessThanZero(key)] else []
  }

  /**
   * On five numbers the constructor completes and prints the sign warnings of
   * strike, volatility, time and initial price, in that order.
   */
  lemma NumericTable(strike: real, vol: real, rf: real, time: real, init: real)
    ensures Validation(Table(Number(strike), Number(vol), Number(rf), Number(time), Number(init))) ==
            Report(SignFlag(StrikeKey, strike) + SignFlag(VolatilityKey, vol) +
                   SignFlag(TimeKey, time) + SignFlag(InitialKey, init), None)
  {
    var t := Table(Number(strike), Number(vol), Number(rf), Number(time), Number(init));
    var a, b, c, d := SignFlag(StrikeKey, strike), SignFlag(VolatilityKey, vol),
                      SignFlag(TimeKey, time), SignFlag(InitialKey, init);
    assert t[..1][..0] == [];
    assert Validation(t[..1]) == Report(a, None);
    assert t[..2][..1] == t[..1];
    assert Validation(t[..2]) == Report(a + b, None);
    assert t[..3][..2] == t[..2];
    assert Validation(t[..3]) == Report(a + b, None);
    assert t[..4][..3] == t[..3];
    assert Validation(t[..4]) == Report(a + b + c, None);
    assert t[..5][..4] == t[..4];
    assert t[..5] == t;
  }

  /** The base object, with the `timesteps` attribute the subclasses add (None until they do). */
  class Options {
    var strikePrice: Value
    var vol: Value
    var rfRate: Value
    var time: Value
    var initPrice: Value
    var parameters: seq<Entry>
    var timesteps: Option<Value>

    /** `__init__` up to the call to `validate`: the fields and the table. */
    constructor Init(strikePrice: Value, vol: Value, rfRate: Value, time: Value, initPrice: Value)
      ensures this.strikePrice == strikePrice && this.vol == vol && this.rfRate == rfRate
      ensures this.time == time && this.initPrice == initPrice
      ensures parameters == Table(strikePrice, vol, rfRate, time, initPrice)
      ensures timesteps == None
    {
      this.strikePrice := strikePrice;
      this.vol := vol;
      this.rfRate := rfRate;
      this.time := time;
      this.initPrice := initPrice;
      parameters := Table(strikePrice, vol, rfRate, time, initPrice);
      timesteps := None;
    }

    /** `validate`: one pass over the table, stopping at the TypeError. */
    method Validate() returns (report: Report)
      ensures report == Validation(parameters)
    {
      report := Report([], None);
      for i := 0 to |parameters|
        invariant report == Validation(parameters[..i])
        invariant report.error.None?
      {
        var (key, val) := parameters[i];
        assert parameters[..i + 1][..i] == parameters[..i];
        var warnings := report.warnings;
        if !val.Number? {
          warnings := warnings + [NotANumber(key)];
        }
        if key != RateKey {
          if val.Unordered? {
            report := Report(warnings, Some(TypeError));
            RaisedPrefix(parameters, i + 1);
            return;
          }
          if val.x <= 0.0 {
            warnings := warnings + [LessThanZero(key)];
          }
        }
        report := Report(warnings, None);
      }
      assert parameters[..|parameters|] == parameters;
    }

    /** `self.timesteps = v` followed by `self.parameters['Timesteps'] = v`. */
    method SetTimesteps(v: Value)
      modifies this
      ensures timesteps == Some(v)
      ensures parameters == SetEntry(old(parameters), TimestepsKey, v)
      ensures strikePrice == old(strikePrice) && vol == old(vol) && rfRate == old(rfRate)
      ensures time == old(time) && initPrice == old(initPrice)
    {
      timesteps := Some(v);
      parameters := SetEntry(parameters, TimestepsKey, v);
    }
  }

  /**
   * `Options(...)`: builds the object and validates it. The messages are
   * printed either way; the object exists only when no TypeError was raised.
   */
  method New(strike: Value, vol: Value, rf: Value, time: Value, init: Value)
    returns (r: Result<Options>, printed: seq<string>)
    ensures var report := Validation(Table(strike, vol, rf, time, init));
            printed == Messages(report.warnings) &&
            (r.Err? <==> report.error.Some?) &&
            (r.Err? ==> r.error == TypeError)
    ensures r.Ok? ==>
              fresh(r.value) && r.value.timesteps == None &&
              r.value.parameters == Table(strike, vol, rf, time, init) &&
              r.value.strikePrice == strike && r.value.vol == vol && r.value.rfRate == rf &&
              r.value.time == time && r.value.initPrice == init
  {
    var o := new Options.Init(strike, vol, rf, time, init);
    var report := o.Validate();
    ValidationRaises(Table(strike, vol, rf, time, init));
    printed := Messages(report.warnings);
    if report.error.Some? {
      r := Err(report.error.value);
    } else {
      r := Ok(o);
    }
  }
}
