/** The shared logger (src/helpers/logger.js): four levels, a level chosen once from the
    environment, a filter, a console-or-listeners decision and an insertion-ordered set of
    listeners that every accepted entry is delivered to. */
module Logger {
  import opened Wrappers
  import opened JsString
  import opened JsArray

  /** The keys of `LOG_LEVELS`. */
  datatype Level = Error | Warn | Info | Debug

  /** The value `LOG_LEVELS` gives each level: lower is more severe. */
  function Rank(l: Level): (r: nat)
    ensures r <= 3
  {
    match l
    case Error => 0
    case Warn => 1
    case Info => 2
    case Debug => 3
  }

  /** The key under which each level is stored. */
  function Name(l: Level): string {
    match l
    case Error => "error"
    case Warn => "warn"
    case Info => "info"
    case Debug => "debug"
  }

  /** `LOG_LEVELS[name]` for the four level keys: the level whose key is exactly `name`. */
  function LevelNamed(name: string): (r: Option<Level>)
    ensures r.Some? ==> Name(r.value) == name
    ensures r.None? ==> forall l: Level :: Name(l) != name
  {
    if name == "error" then Some(Error)
    else if name == "warn" then Some(Warn)
    else if name == "info" then Some(Info)
    else if name == "debug" then Some(Debug)
    else None
  }

  /** Distinct levels have distinct ranks, so a rank names its level. */
  lemma RankInjective(a: Level, b: Level)
    ensures Rank(a) == Rank(b) ==> a == b
  {
  }

  /** The property names that `in` finds on every object through `Object.prototype` and that
      a lower-cased string can spell: every other inherited name has an upper-case letter. */
  const InheritedKeys: set<string> := {"constructor", "__proto__"}

  /** What `parseLevel` returns: a level's number, the value of an inherited property (a
      function or an object, never a number and never null), or null. */
  datatype Parsed = LevelValue(level: Level) | Inherited(key: string) | Null

  /** `parseLevel(value)`: a value that is not a string (`None`) gives null; a string is
      trimmed and lower-cased, and the `in` test accepts the four keys and the inherited
      ones alike. */
  function ParseLevel(value: Option<string>): (r: Parsed)
    ensures value.None? ==> r.Null?
    ensures value.Some? && r.LevelValue? ==> Name(r.level) == ToLower(Trim(value.value))
    ensures value.Some? && r.Inherited? ==>
              r.key == ToLower(Trim(value.value)) && r.key in InheritedKeys
    ensures value.Some? && r.Null? ==>
              ToLower(Trim(value.value)) !in InheritedKeys
              && forall l: Level :: Name(l) != ToLower(Trim(value.value))
  {
    match value
    case None => Null
    case Some(s) =>
      var key := ToLower(Trim(s));
      match LevelNamed(key)
      case Some(l) => LevelValue(l)
      case None => if key in InheritedKeys then Inherited(key) else Null
  }

  /** A string names a level exactly when, trimmed and lower-cased, it is that level's key:
      surrounding white space and upper-case letters do not matter. */
  lemma ParseLevelOfName(l: Level, s: string)
    ensures ParseLevel(Some(s)) == LevelValue(l) <==> ToLower(Trim(s)) == Name(l)
  {
  }

  /** `currentLevel`: `envLevel` is the first of the two parses that is not null (`??`), else
      info; it is kept only when it is a number, so an inherited key gives info. */
  function EnvLevel(cddLogLevel: Option<string>, logLevel: Option<string>): Level {
    var env := if !ParseLevel(cddLogLevel).Null? then ParseLevel(cddLogLevel) else ParseLevel(logLevel);
    if env.LevelValue? then env.level else Info
  }

  /** The precedence of the two variables: a `CDD_LOG_LEVEL` that does not parse to null
      decides alone (info when it is an inherited key), otherwise `LOG_LEVEL` decides the same
      way, otherwise the level is info. */
  lemma EnvLevelPrecedence(cdd: Option<string>, log: Option<string>, other: Option<string>)
    ensures !ParseLevel(cdd).Null? ==> EnvLevel(cdd, log) == EnvLevel(cdd, other)
    ensures ParseLevel(cdd).LevelValue? ==> EnvLevel(cdd, log) == ParseLevel(cdd).level
    ensures ParseLevel(cdd).Inherited? ==> EnvLevel(cdd, log) == Info
    ensures ParseLevel(cdd).Null? && ParseLevel(log).LevelValue? ==> EnvLevel(cdd, log) == ParseLevel(log).level
    ensures ParseLevel(cdd).Null? && !ParseLevel(log).LevelValue? ==> EnvLevel(cdd, log) == Info
    ensures EnvLevel(cdd, log) == Info <==>
              ParseLevel(cdd) == LevelValue(Info) || ParseLevel(cdd).Inherited?
              || (ParseLevel(cdd).Null? && (!ParseLevel(log).LevelValue? || ParseLevel(log).level == Info))
  {
  }

  /** An inherited key in `CDD_LOG_LEVEL` stops the `??` chain, so `LOG_LEVEL` is not
      consulted and the level falls back to info; without it `LOG_LEVEL` decides. */
  lemma InheritedKeyHidesLogLevel()
    ensures EnvLevel(Some("constructor"), Some("debug")) == Info
    ensures EnvLevel(None, Some("debug")) == Debug
  {
    KeyOfConstructor();
    KeyOfDebug();
  }

  /** `"constructor"` is found by `in` on `Object.prototype`, not among the level keys. */
  lemma KeyOfConstructor()
    ensures ParseLevel(Some("constructor")) == Inherited("constructor")
  {
    var c := "constructor";
    TrimOfUnpadded(c);
    ToLowerOfLower(c);
    assert LevelNamed(c).None?;
  }

  /** `"debug"` parses to the debug level. */
  lemma KeyOfDebug()
    ensures ParseLevel(Some("debug")) == LevelValue(Debug)
  {
    var d := "debug";
    TrimOfUnpadded(d);
    ToLowerOfLower(d);
    assert LevelNamed(d) == Some(Debug);
  }

  /** `shouldLog(level)`: `level` is one of the four keys and its rank is at most the
      current level's. */
  function ShouldLog(level: string, current: Level): (b: bool)
    ensures b <==> exists l: Level :: Name(l) == level && Rank(l) <= Rank(current)
  {
    var target := LevelNamed(level);
    target.Some? && Rank(target.value) <= Rank(current)
  }

  /** Errors pass the filter whatever the current level; any other name than the four keys
      never does; raising the current level never filters out more. */
  lemma ShouldLogFacts(level: string, current: Level, higher: Level)
    ensures level == Name(Error) ==> ShouldLog(level, current)
    ensures LevelNamed(level).None? ==> !ShouldLog(level, current)
    ensures ShouldLog(level, current) && Rank(current) <= Rank(higher) ==> ShouldLog(level, higher)
  {
  }

  /** `shouldWriteToConsole`: no listeners are registered, or the level is error or warn. */
  function ShouldWriteToConsole(listenerCount: nat, level: string): bool {
    listenerCount == 0 || level == "error" || level == "warn"
  }

  /** Debug and info reach the console only while nobody listens; error and warn always do. */
  lemma ConsoleDecision(l: Level, listenerCount: nat)
    ensures l == Error || l == Warn ==> ShouldWriteToConsole(listenerCount, Name(l))
    ensures l == Info || l == Debug ==> (ShouldWriteToConsole(listenerCount, Name(l)) <==> listenerCount == 0)
  {
  }

  /** The console methods that exist, as `typeof console[method] === "function"` sees them. */
  predicate ConsoleHas(name: string) {
    name == "log" || name == "error" || name == "warn" || name == "info" || name == "debug"
  }

  /** The console method used: `log` for debug, the level's own name otherwise, and `log`
      when the console has no such method. */
  function ConsoleMethod(level: string): (m: string)
    ensures ConsoleHas(m)
    ensures level != "debug" && ConsoleHas(level) ==> m == level
  {
    var name := if level == "debug" then "log" else level;
    if ConsoleHas(name) then name else "log"
  }

  /** A level that passes the filter is written with `console.log` for debug and with the
      method of its own name otherwise: the `console.log` fallback is never taken. */
  lemma ConsoleMethodOfLevel(l: Level)
    ensures ConsoleMethod(Name(l)) == (if l == Debug then "log" else Name(l))
  {
  }

  /** The formatted line `[timestamp] [LEVEL] message`. */
  function Format(timestamp: string, level: string, message: string): string {
    "[" + timestamp + "] [" + ToUpper(level) + "] " + message
  }

  /** A formatted line can be read back: the timestamp, the upper-cased level and the message
      sit at fixed places between the brackets. */
  lemma FormatFields(timestamp: string, level: string, message: string)
    ensures |Format(timestamp, level, message)| == |timestamp| + |level| + |message| + 6
    ensures Format(timestamp, level, message)[..1] == "["
    ensures Format(timestamp, level, message)[1..1 + |timestamp|] == timestamp
    ensures Format(timestamp, level, message)[1 + |timestamp|..4 + |timestamp|] == "] ["
    ensures Format(timestamp, level, message)[4 + |timestamp|..4 + |timestamp| + |level|] == ToUpper(level)
    ensures Format(timestamp, level, message)[4 + |timestamp| + |level|..6 + |timestamp| + |level|] == "] "
    ensures Format(timestamp, level, message)[6 + |timestamp| + |level|..] == message
  {
    FormatHead(timestamp, level, message);
    FormatTail(timestamp, level, message);
  }

  lemma FormatHead(timestamp: string, level: string, message: string)
    ensures Format(timestamp, level, message)[..1] == "["
    ensures Format(timestamp, level, message)[1..1 + |timestamp|] == timestamp
    ensures Format(timestamp, level, message)[1 + |timestamp|..4 + |timestamp|] == "] ["
  {
    var u := ToUpper(level);
    var f := Format(timestamp, level, message);
    assert f == "[" + timestamp + ("] [" + u + "] " + message);
    ThreePieces("[", timestamp, "] [" + u + "] " + message);
    assert f == ("[" + timestamp) + "] [" + (u + "] " + message);
    ThreePieces("[" + timestamp, "] [", u + "] " + message);
  }

  lemma FormatTail(timestamp: string, level: string, message: string)
    ensures |Format(timestamp, level, message)| == |timestamp| + |level| + |message| + 6
    ensures Format(timestamp, level, message)[4 + |timestamp|..4 + |timestamp| + |level|] == ToUpper(level)
    ensures Format(timestamp, level, message)[4 + |timestamp| + |level|..6 + |timestamp| + |level|] == "] "
    ensures Format(timestamp, level, message)[6 + |timestamp| + |level|..] == message
  {
    var u := ToUpper(level);
    var f := Format(timestamp, level, message);
    assert f == ("[" + timestamp + "] [") + u + ("] " + message);
    ThreePieces("[" + timestamp + "] [", u, "] " + message);
    assert f == ("[" + timestamp + "] [" + u) + "] " + message;
    ThreePieces("[" + timestamp + "] [" + u, "] ", message);
  }

  /** Where the middle piece of a three-piece concatenation sits. */
  lemma ThreePieces(a: string, b: string, c: string)
    ensures (a + b + c)[..|a|] == a && (a + b + c)[|a|..|a| + |b|] == b
    ensures (a + b + c)[|a| + |b|..] == c
  {
  }

  /** What `log` hands to listeners. */
  datatype Entry = Entry(level: string, message: string, args: seq<string>,
                         timestamp: string, formatted: string)

  function MakeEntry(level: string, message: string, args: seq<string>, timestamp: string): (e: Entry)
    ensures e.level == level && e.message == message && e.args == args && e.timestamp == timestamp
    ensures e.formatted == Format(timestamp, level, message)
  {
    Entry(level, message, args, timestamp, Format(timestamp, level, message))
  }

  /** One line written to the console: the method used, the formatted line and the extra
      arguments. */
  datatype ConsoleWrite = ConsoleWrite(consoleMethod: string, line: string, args: seq<string>)

  /** One call of a listener with an entry, and whether that call threw. */
  datatype Delivery = Delivery(listener: nat, entry: Entry, threw: bool)

  /** A listener is identified by a number; `throws` says which listeners throw when called. */
  function Deliveries(listeners: seq<nat>, e: Entry, throws: nat -> bool): (r: seq<Delivery>)
    ensures |r| == |listeners|
    ensures forall i :: 0 <= i < |r| ==>
              r[i].listener == listeners[i] && r[i].entry == e && r[i].threw == throws(listeners[i])
  {
    seq(|listeners|, i requires 0 <= i < |listeners| => Delivery(listeners[i], e, throws(listeners[i])))
  }

  /** `listeners.add(x)` on an insertion-ordered set. */
  function SetAdd(s: seq<nat>, x: nat): (r: seq<nat>)
    ensures NoDuplicates(s) ==> NoDuplicates(r)
    ensures forall y :: y in r <==> y in s || y == x
    ensures x in s ==> r == s
  {
    if x in s then s else s + [x]
  }

  /** `listeners.delete(x)`. */
  function SetDelete(s: seq<nat>, x: nat): (r: seq<nat>)
    ensures NoDuplicates(s) ==> NoDuplicates(r)
    ensures forall y :: y in r <==> y in s && y != x
    ensures |r| <= |s|
  {
    if s == [] then []
    else if s[0] == x then SetDelete(s[1..], x)
    else
      var rest := SetDelete(s[1..], x);
      assert NoDuplicates(s) ==> NoDuplicates([s[0]] + rest) by {
        if NoDuplicates(s) {
          assert forall k :: 1 <= k < |s| ==> s[k] != s[0];
          assert NoDuplicates(s[1..]);
          assert s[0] !in rest;
          var r := [s[0]] + rest;
          forall i, j | 0 <= i < j < |r| ensures r[i] != r[j] {
            assert r[j] == rest[j - 1];
            if i > 0 { assert r[i] == rest[i - 1]; }
          }
        }
      }
      [s[0]] + rest
  }

  /** Deleting a listener that was just added restores the set exactly: the returned
      unsubscribe function undoes its subscription. */
  lemma {:induction false} DeleteUndoesAdd(s: seq<nat>, x: nat)
    requires x !in s
    ensures SetDelete(SetAdd(s, x), x) == s
  {
    DeleteAbsent(s, x);
    DeleteAppend(s, [x], x);
  }

  lemma {:induction false} DeleteAbsent(s: seq<nat>, x: nat)
    requires x !in s
    ensures SetDelete(s, x) == s
  {
    if s != [] {
      DeleteAbsent(s[1..], x);
    }
  }

  lemma {:induction false} DeleteAppend(a: seq<nat>, b: seq<nat>, x: nat)
    ensures SetDelete(a + b, x) == SetDelete(a, x) + SetDelete(b, x)
  {
    if a == [] {
      assert a + b == b;
    } else {
      assert (a + b)[1..] == a[1..] + b;
      DeleteAppend(a[1..], b, x);
    }
  }

  /** Deleting only removes `x`: the other listeners keep their relative order. */
  lemma {:induction false} DeleteKeepsOthers(a: seq<nat>, x: nat, b: seq<nat>)
    requires x !in a && x !in b
    ensures SetDelete(a + [x] + b, x) == a + b
  {
    calc {
      SetDelete(a + [x] + b, x);
      { DeleteAppend(a + [x], b, x); }
      SetDelete(a + [x], x) + SetDelete(b, x);
      { DeleteAppend(a, [x], x); }
      SetDelete(a, x) + SetDelete([x], x) + SetDelete(b, x);
      { assert [x][1..] == []; }
      SetDelete(a, x) + SetDelete(b, x);
      { DeleteAbsent(a, x); DeleteAbsent(b, x); }
      a + b;
    }
  }

  /** The `subscribe` argument: something that is not a function, or a listener. */
  datatype Candidate = NotAFunction | Listener(id: nat)

  /** The function `subscribe` returns: `() => {}`, or `() => listeners.delete(listener)`. */
  datatype Unsubscribe = Noop | Remove(id: nat)

  /** The module-level state of logger.js: the level fixed at load time and the listener set,
      together with what has been written to the console and delivered to listeners. */
  class Log {
    const current: Level
    var listeners: seq<nat>
    var console: seq<ConsoleWrite>
    var delivered: seq<Delivery>

    predicate Valid()
      reads this
    {
      NoDuplicates(listeners)
    }

    /** Loading the module: the level comes from the two environment variables; there are
        no listeners yet. */
    constructor (cddLogLevel: Option<string>, logLevel: Option<string>)
      ensures Valid()
      ensures current == EnvLevel(cddLogLevel, logLevel)
      ensures listeners == [] && console == [] && delivered == []
    {
      current := EnvLevel(cddLogLevel, logLevel);
      listeners := [];
      console := [];
      delivered := [];
    }

    /** `logger.subscribe(listener)`. */
    method Subscribe(candidate: Candidate) returns (unsubscribe: Unsubscribe)
      requires Valid()
      modifies this
      ensures Valid()
      ensures candidate.NotAFunction? ==> listeners == old(listeners) && unsubscribe == Noop
      ensures candidate.Listener? ==>
                listeners == SetAdd(old(listeners), candidate.id) && unsubscribe == Remove(candidate.id)
      ensures console == old(console) && delivered == old(delivered)
    {
      match candidate
      case NotAFunction =>
        unsubscribe := Noop;
      case Listener(id) =>
        listeners := SetAdd(listeners, id);
        unsubscribe := Remove(id);
    }

    /** Calling the function `subscribe` returned. `removed` is what `listeners.delete`
        reports: whether the listener was still registered. */
    method RunUnsubscribe(unsubscribe: Unsubscribe) returns (removed: bool)
      requires Valid()
      modifies this
      ensures Valid()
      ensures unsubscribe.Noop? ==> listeners == old(listeners) && !removed
      ensures unsubscribe.Remove? ==>
                listeners == SetDelete(old(listeners), unsubscribe.id)
                && removed == (unsubscribe.id in old(listeners))
      ensures console == old(console) && delivered == old(delivered)
    {
      match unsubscribe
      case Noop =>
        removed := false;
      case Remove(id) =>
        removed := id in listeners;
        listeners := SetDelete(listeners, id);
    }

    /** `log(level, message, ...args)`. The timestamp is a parameter (there is no clock), and
        `throws` says which listeners throw when called. */
    method Emit(level: string, message: string, args: seq<string>, timestamp: string,
                throws: nat -> bool)
      requires Valid()
      modifies this
      ensures Valid() && listeners == old(listeners)
      ensures !ShouldLog(level, current) ==> console == old(console) && delivered == old(delivered)
      ensures ShouldLog(level, current) ==>
                var e := MakeEntry(level, message, args, timestamp);
                console == old(console) +
                  (if ShouldWriteToConsole(|listeners|, level)
                   then [ConsoleWrite(ConsoleMethod(level), e.formatted, args)] else [])
                && delivered == old(delivered) + Deliveries(listeners, e, throws)
    {
      if !ShouldLog(level, current) {
        return;
      }
      var e := MakeEntry(level, message, args, timestamp);
      if ShouldWriteToConsole(|listeners|, level) {
        console := console + [ConsoleWrite(ConsoleMethod(level), e.formatted, args)];
      }
      // listeners.forEach, each call wrapped in try/catch
      var written := console;
      var i := 0;
      while i < |listeners|
        invariant listeners == old(listeners) && console == written
        invariant 0 <= i <= |listeners|
        invariant delivered == old(delivered) + Deliveries(listeners[..i], e, throws)
      {
        var threw := throws(listeners[i]);
        delivered := delivered + [Delivery(listeners[i], e, threw)];
        assert listeners[..i + 1] == listeners[..i] + [listeners[i]];
        i := i + 1;
      }
      assert listeners[..i] == listeners;
    }

    /** `logger.debug`, `logger.info`, `logger.warn` and `logger.error`. */
    method Write(l: Level, message: string, args: seq<string>, timestamp: string,
                 throws: nat -> bool)
      requires Valid()
      modifies this
      ensures Valid() && listeners == old(listeners)
      ensures Rank(l) > Rank(current) ==> console == old(console) && delivered == old(delivered)
      ensures Rank(l) <= Rank(current) ==>
                console == old(console) +
                  (if ShouldWriteToConsole(|listeners|, Name(l))
                   then [ConsoleWrite(ConsoleMethod(Name(l)), Format(timestamp, Name(l), message), args)]
                   else [])
                && delivered == old(delivered) +
                  Deliveries(listeners, MakeEntry(Name(l), message, args, timestamp), throws)
    {
      Emit(Name(l), message, args, timestamp, throws);
    }
  }
}
