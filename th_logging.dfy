/**
 * `configure_logging` and `get_logger`. Before the configuration file is
 * applied, its sections are rewritten: the root level is set and, for JSON
 * output, every logger section is switched to the JSON handler. Afterwards
 * uvicorn's loggers are re-attached to the root handlers and the named
 * loggers are reset to follow the root. A logger is a value in a registry
 * keyed by name, and a handler is known by its identity.
 */
module ThLogging {
  import opened Common

  /** A handler, known by its identity. */
  type Handler = nat

  /** `logging.NOTSET`, the level of a newly created logger. */
  const NotSet: int := 0

  /** The name under which `getLogger("")` finds the root logger. */
  const RootName: string := ""

  const RootSection: string := "logger_root"
  const LoggerPrefix: string := "logger_"
  const JsonHandlers: string := "console_json"

  /** The options of one INI section, and the sections of one file. */
  type Section = map<string, string>
  type Ini = map<string, Section>

  // ---------------------------------------------------------------------
  // The INI rewrite (lines 19-26)
  // ---------------------------------------------------------------------

  /** One JSON step: a logger section gets `handlers = console_json`. */
  function UseJsonHandlers(entries: Ini, section: string): Ini
  {
    if StartsWith(section, LoggerPrefix) && section in entries
    then entries[section := entries[section]["handlers" := JsonHandlers]]
    else entries
  }

  /** The JSON steps over the sections in file order. */
  function JsonRewrite(entries: Ini, order: seq<string>): Ini
    decreases |order|
  {
    if |order| == 0 then entries
    else UseJsonHandlers(JsonRewrite(entries, order[..|order| - 1]), order[|order| - 1])
  }

  /** The root section with its level set. */
  function Leveled(entries: Ini, level: string): Ini
    requires RootSection in entries
  {
    entries[RootSection := entries[RootSection]["level" := level]]
  }

  /** The sections once lines 21-26 have run. */
  function Rewritten(entries: Ini, order: seq<string>, level: string, jsonLogging: bool): Ini
    requires RootSection in entries
  {
    if jsonLogging then JsonRewrite(Leveled(entries, level), order) else Leveled(entries, level)
  }

  /** The JSON steps touch exactly the logger sections that are listed, and only their `handlers` option. */
  lemma {:induction false} JsonRewriteSections(entries: Ini, order: seq<string>)
    ensures JsonRewrite(entries, order).Keys == entries.Keys
    ensures forall s :: s in entries ==>
      (JsonRewrite(entries, order)[s] ==
       if StartsWith(s, LoggerPrefix) && s in order then entries[s]["handlers" := JsonHandlers] else entries[s])
    decreases |order|
  {
    if |order| > 0 {
      var init := order[..|order| - 1];
      JsonRewriteSections(entries, init);
      assert order == init + [order[|order| - 1]];
    }
  }

  /**
   * Each section after the rewrite: the root section carries the given
   * level; with JSON logging every listed logger section carries the JSON
   * handler; nothing else changes, so without JSON logging the root level
   * is the only change.
   */
  lemma RewrittenSections(entries: Ini, order: seq<string>, level: string, jsonLogging: bool)
    requires RootSection in entries
    ensures Rewritten(entries, order, level, jsonLogging).Keys == entries.Keys
    ensures forall s :: s in entries ==>
      (Rewritten(entries, order, level, jsonLogging)[s] ==
       var e := if s == RootSection then entries[s]["level" := level] else entries[s];
       if jsonLogging && StartsWith(s, LoggerPrefix) && s in order then e["handlers" := JsonHandlers] else e)
  {
    JsonRewriteSections(Leveled(entries, level), order);
  }

  /** Line 21: the root level is the argument, whatever else is rewritten. */
  lemma RootLevelIsSet(entries: Ini, order: seq<string>, level: string, jsonLogging: bool)
    requires RootSection in entries
    ensures RootSection in Rewritten(entries, order, level, jsonLogging)
    ensures "level" in Rewritten(entries, order, level, jsonLogging)[RootSection]
    ensures Rewritten(entries, order, level, jsonLogging)[RootSection]["level"] == level
  {
    RewrittenSections(entries, order, level, jsonLogging);
  }

  /** A `ConfigParser` after `read`: the section names in file order and each section's options. */
  class Config {
    var order: seq<string>
    var entries: Ini

    ghost predicate Valid()
      reads this
    {
      forall s :: s in order ==> s in entries
    }

    constructor (order: seq<string>, entries: Ini)
      requires forall s :: s in order ==> s in entries
      ensures Valid() && this.order == order && this.entries == entries
    {
      this.order := order;
      this.entries := entries;
    }

    /** `config[section][option] = value`; a missing section raises `KeyError`. */
    method Set(section: string, option: string, value: string) returns (err: Option<string>)
      requires Valid()
      modifies this
      ensures Valid() && order == old(order)
      ensures err.Some? <==> section !in old(entries)
      ensures err.Some? ==> err == Some(KeyErrorText(section)) && entries == old(entries)
      ensures err.None? ==> entries == old(entries)[section := old(entries)[section][option := value]]
    {
      if section !in entries {
        return Some(KeyErrorText(section));
      }
      entries := entries[section := entries[section][option := value]];
      err := None;
    }
  }

  /** Lines 19-26 on a file already read: without a root section the first assignment raises `KeyError`. */
  method RewriteConfig(config: Config, level: string, jsonLogging: bool) returns (err: Option<string>)
    requires config.Valid()
    modifies config
    ensures config.Valid() && config.order == old(config.order)
    ensures err.Some? <==> RootSection !in old(config.entries)
    ensures err.Some? ==> err == Some(KeyErrorText(RootSection)) && config.entries == old(config.entries)
    ensures err.None? ==> config.entries == Rewritten(old(config.entries), old(config.order), level, jsonLogging)
  {
    err := config.Set(RootSection, "level", level);
    if err.Some? {
      return;
    }
    if jsonLogging {
      var sections := config.order;
      ghost var leveled := config.entries;
      for i := 0 to |sections|
        invariant config.Valid() && config.order == sections
        invariant config.entries == JsonRewrite(leveled, sections[..i])
      {
        assert sections[..i + 1][..i] == sections[..i];
        if StartsWith(sections[i], LoggerPrefix) {
          var _ := config.Set(sections[i], "handlers", JsonHandlers);
        }
      }
      assert sections[..|sections|] == sections;
    }
  }

  // ---------------------------------------------------------------------
  // Loggers and handlers
  // ---------------------------------------------------------------------

  datatype LoggerState = LoggerState(handlers: seq<Handler>, propagate: bool, level: int)

  /** A logger as `getLogger` creates it: no handlers, propagating, level `NOTSET`. */
  const NewLogger: LoggerState := LoggerState([], true, NotSet)

  /** The registry once `getLogger(name)` has run: an existing logger is kept, a missing one is created. */
  function Registered(loggers: map<string, LoggerState>, name: string): (r: map<string, LoggerState>)
    ensures name in r && r.Keys == loggers.Keys + {name}
    ensures r[name] == (if name in loggers then loggers[name] else NewLogger)
    ensures forall n :: n in loggers ==> r[n] == loggers[n]
  {
    if name in loggers then loggers else loggers[name := NewLogger]
  }

  /** Asking twice for the same name, or asking for another name in between, gives the same logger. */
  lemma {:induction false} RegisteredIsStable(loggers: map<string, LoggerState>, a: string, b: string)
    ensures Registered(Registered(loggers, a), b)[a] == Registered(loggers, a)[a]
    ensures Registered(Registered(loggers, a), a) == Registered(loggers, a)
  {
  }

  /** The loggers by name; the root is always there. */
  class Registry {
    var loggers: map<string, LoggerState>

    ghost predicate Valid()
      reads this
    {
      RootName in loggers
    }

    constructor (root: LoggerState)
      ensures Valid() && loggers == map[RootName := root]
    {
      loggers := map[RootName := root];
    }

    /** `logging.getLogger()`. */
    function Root(): LoggerState
      reads this
      requires Valid()
    {
      loggers[RootName]
    }

    /** `get_logger(name)`, which is `logging.getLogger(name)`: the logger registered under exactly `name`. */
    method GetLogger(name: string) returns (logger: LoggerState)
      requires Valid()
      modifies this
      ensures Valid() && loggers == Registered(old(loggers), name)
      ensures logger == loggers[name]
      ensures name in old(loggers) ==> logger == old(loggers)[name]
    {
      if name !in loggers {
        loggers := loggers[name := NewLogger];
      }
      logger := loggers[name];
    }

    /** `logging.config.fileConfig`: the loggers the file describes replace those of the same name. */
    method ApplyFileConfig(loaded: map<string, LoggerState>)
      requires Valid()
      modifies this
      ensures Valid() && loggers == old(loggers) + loaded
    {
      loggers := loggers + loaded;
    }

    /** `logger.handlers = handlers`. */
    method SetHandlers(name: string, handlers: seq<Handler>)
      requires Valid() && name in loggers
      modifies this
      ensures Valid() && loggers == old(loggers)[name := old(loggers)[name].(handlers := handlers)]
    {
      loggers := loggers[name := loggers[name].(handlers := handlers)];
    }

    /** `logger.propagate = propagate`. */
    method SetPropagate(name: string, propagate: bool)
      requires Valid() && name in loggers
      modifies this
      ensures Valid() && loggers == old(loggers)[name := old(loggers)[name].(propagate := propagate)]
    {
      loggers := loggers[name := loggers[name].(propagate := propagate)];
    }

    /** `logger.setLevel(level)`. */
    method SetLevel(name: string, level: int)
      requires Valid() && name in loggers
      modifies this
      ensures Valid() && loggers == old(loggers)[name := old(loggers)[name].(level := level)]
    {
      loggers := loggers[name := loggers[name].(level := level)];
    }
  }

  predicate Distinct(hs: seq<Handler>)
  {
    forall i, j :: 0 <= i < j < |hs| ==> hs[i] != hs[j]
  }

  /** `removeHandler(h)`: the first occurrence of `h` goes, if there is one. */
  function RemoveFirst(hs: seq<Handler>, h: Handler): seq<Handler>
    decreases |hs|
  {
    if |hs| == 0 then hs
    else if hs[0] == h then hs[1..]
    else [hs[0]] + RemoveFirst(hs[1..], h)
  }

  lemma {:induction false} RemoveFirstAfter(a: seq<Handler>, x: Handler, b: seq<Handler>)
    requires x !in a
    ensures RemoveFirst(a + [x] + b, x) == a + b
    decreases |a|
  {
    var s := a + [x] + b;
    if |a| == 0 {
      assert s == [x] + b;
    } else {
      assert s[0] == a[0] && a[0] != x;
      assert s[1..] == a[1..] + [x] + b;
      assert RemoveFirst(s, x) == [a[0]] + RemoveFirst(s[1..], x);
      RemoveFirstAfter(a[1..], x, b);
      assert a + b == [a[0]] + (a[1..] + b);
    }
  }

  /** `addHandler(h)`: appended unless already attached. */
  function AddHandler(hs: seq<Handler>, h: Handler): seq<Handler>
  {
    if h in hs then hs else hs + [h]
  }

  /** `addHandler` for each of `added` in turn. */
  function AddAll(hs: seq<Handler>, added: seq<Handler>): seq<Handler>
    decreases |added|
  {
    if |added| == 0 then hs
    else AddHandler(AddAll(hs, added[..|added| - 1]), added[|added| - 1])
  }

  /** Adding keeps what was attached, in front, and attaches each added handler once. */
  lemma {:induction false} AddAllMembers(hs: seq<Handler>, added: seq<Handler>)
    ensures forall h :: h in AddAll(hs, added) <==> h in hs || h in added
    ensures |hs| <= |AddAll(hs, added)| && AddAll(hs, added)[..|hs|] == hs
    ensures Distinct(hs) ==> Distinct(AddAll(hs, added))
    decreases |added|
  {
    if |added| > 0 {
      var init := added[..|added| - 1];
      AddAllMembers(hs, init);
      assert added == init + [added[|added| - 1]];
      var before := AddAll(hs, init);
      if added[|added| - 1] !in before {
        assert (before + [added[|added| - 1]])[..|hs|] == before[..|hs|];
      }
    }
  }

  /** Handlers without repeats, added to an empty logger, come out as they went in. */
  lemma {:induction false} AddAllDistinct(added: seq<Handler>)
    requires Distinct(added)
    ensures AddAll([], added) == added
    decreases |added|
  {
    if |added| > 0 {
      var init := added[..|added| - 1];
      assert Distinct(init);
      AddAllDistinct(init);
      assert added[|added| - 1] !in init;
      assert added == init + [added[|added| - 1]];
    }
  }

  /** The handlers at odd positions: the second, the fourth, and so on. */
  function Odds(hs: seq<Handler>): seq<Handler>
  {
    seq(|hs| / 2, k requires 0 <= k < |hs| / 2 => hs[2 * k + 1])
  }

  lemma OddsStep(hs: seq<Handler>, i: nat)
    requires 2 * i + 2 <= |hs|
    ensures Odds(hs[..2 * i + 2]) == Odds(hs[..2 * i]) + [hs[2 * i + 1]]
  {
  }

  lemma OddsLast(hs: seq<Handler>, i: nat)
    requires 2 * i + 1 == |hs|
    ensures Odds(hs[..2 * i]) == Odds(hs)
  {
  }

  lemma OddsSkip(hs: seq<Handler>, i: nat)
    requires Distinct(hs) && 2 * i < |hs|
    ensures hs[2 * i] !in Odds(hs[..2 * i])
  {
    var o := Odds(hs[..2 * i]);
    forall k | 0 <= k < |o|
      ensures o[k] != hs[2 * i]
    {
      assert o[k] == hs[2 * k + 1];
    }
  }

  /** Where the removal loop as written stands after `i` passes. */
  predicate AsWrittenPhase(handlers: seq<Handler>, i: nat, rest: seq<Handler>)
  {
    if 2 * i <= |handlers| then rest == Odds(handlers[..2 * i]) + handlers[2 * i..]
    else 2 * i == |handlers| + 1 && rest == Odds(handlers)
  }

  /** One pass of the removal loop as written: the handler at position `2 * i` goes, the one after it stays. */
  lemma AsWrittenStep(handlers: seq<Handler>, i: nat, rest: seq<Handler>)
    requires Distinct(handlers) && AsWrittenPhase(handlers, i, rest) && i < |rest|
    ensures 2 * i < |handlers| && rest[i] == handlers[2 * i]
    ensures AsWrittenPhase(handlers, i + 1, RemoveFirst(rest, rest[i]))
  {
    var o := Odds(handlers[..2 * i]);
    var h := handlers[2 * i];
    var tail := handlers[2 * i + 1..];
    assert |o| == i;
    assert handlers[2 * i..] == [h] + tail;
    assert rest == o + [h] + tail;
    OddsSkip(handlers, i);
    RemoveFirstAfter(o, h, tail);
    AsWrittenNext(handlers, i);
  }

  lemma AsWrittenStart(handlers: seq<Handler>)
    ensures AsWrittenPhase(handlers, 0, handlers)
  {
    assert handlers[..0] == [] && handlers[0..] == handlers;
    assert Odds([]) == [];
  }

  /** The loop stops once the position passes the end of what is left; then only the odd positions remain. */
  lemma AsWrittenDone(handlers: seq<Handler>, i: nat, rest: seq<Handler>)
    requires AsWrittenPhase(handlers, i, rest) && i >= |rest|
    ensures rest == Odds(handlers)
  {
    if 2 * i <= |handlers| {
      assert |rest| == i + (|handlers| - 2 * i);
      assert handlers[..2 * i] == handlers;
    }
  }

  /** After the pass, the invariant of the loop holds again one step further. */
  lemma AsWrittenNext(handlers: seq<Handler>, i: nat)
    requires 2 * i < |handlers|
    ensures AsWrittenPhase(handlers, i + 1, Odds(handlers[..2 * i]) + handlers[2 * i + 1..])
  {
    if 2 * i + 2 <= |handlers| {
      OddsStep(handlers, i);
      assert handlers[2 * i + 1..] == [handlers[2 * i + 1]] + handlers[2 * i + 2..];
    } else {
      OddsLast(handlers, i);
    }
  }

  /** `removeHandler` drops one handler when it is attached, and attaches none. */
  lemma {:induction false} RemoveFirstShrinks(hs: seq<Handler>, h: Handler)
    requires h in hs
    ensures |RemoveFirst(hs, h)| == |hs| - 1
    ensures forall x :: x in RemoveFirst(hs, h) ==> x in hs
    decreases |hs|
  {
    if hs[0] != h {
      RemoveFirstShrinks(hs[1..], h);
    }
  }

  /**
   * Lines 39-40 as written, from position `i` of the handlers still
   * attached: the handler there is removed, and the iteration moves on past
   * the one that slid into its place.
   */
  function AsWrittenRemoval(rest: seq<Handler>, i: nat): seq<Handler>
    decreases |rest| - i
  {
    if i >= |rest| then rest
    else
      RemoveFirstShrinks(rest, rest[i]);
      AsWrittenRemoval(RemoveFirst(rest, rest[i]), i + 1)
  }

  /** The removal as written only ever detaches handlers. */
  lemma {:induction false} AsWrittenRemovalDetachesOnly(rest: seq<Handler>, i: nat)
    ensures forall x :: x in AsWrittenRemoval(rest, i) ==> x in rest
    decreases |rest| - i
  {
    if i < |rest| {
      RemoveFirstShrinks(rest, rest[i]);
      AsWrittenRemovalDetachesOnly(RemoveFirst(rest, rest[i]), i + 1);
    }
  }

  /** From any point of the loop over distinct handlers, what ends attached is the handlers at odd positions. */
  lemma {:induction false} AsWrittenRemovalFrom(handlers: seq<Handler>, i: nat, rest: seq<Handler>)
    requires Distinct(handlers) && AsWrittenPhase(handlers, i, rest)
    ensures AsWrittenRemoval(rest, i) == Odds(handlers)
    decreases |rest| - i
  {
    if i >= |rest| {
      AsWrittenDone(handlers, i, rest);
    } else {
      AsWrittenStep(handlers, i, rest);
      RemoveFirstShrinks(rest, rest[i]);
      AsWrittenRemovalFrom(handlers, i + 1, RemoveFirst(rest, rest[i]));
    }
  }

  /** Lines 39-40 as written detach only the handlers at even positions: the first, the third, and so on. */
  lemma AsWrittenRemovalIsOdds(handlers: seq<Handler>)
    requires Distinct(handlers)
    ensures AsWrittenRemoval(handlers, 0) == Odds(handlers)
  {
    AsWrittenStart(handlers);
    AsWrittenRemovalFrom(handlers, 0, handlers);
  }

  /**
   * Lines 39-40 as written: each removal shifts the next handler into the
   * position the iteration has just passed, so of distinct handlers only
   * those at odd positions stay attached.
   */
  method RemoveHandlersAsWritten(handlers: seq<Handler>) returns (rest: seq<Handler>)
    ensures rest == AsWrittenRemoval(handlers, 0)
    ensures Distinct(handlers) ==> rest == Odds(handlers)
  {
    rest := handlers;
    var i := 0;
    while i < |rest|
      invariant AsWrittenRemoval(rest, i) == AsWrittenRemoval(handlers, 0)
      decreases |rest| - i
    {
      var h := rest[i];
      RemoveFirstShrinks(rest, h);
      i := i + 1;
      rest := RemoveFirst(rest, h);
    }
    if Distinct(handlers) {
      AsWrittenRemovalIsOdds(handlers);
    }
  }

  /** What lines 39-40 evidently intend: iterating over a snapshot detaches every handler. */
  method ClearHandlers(handlers: seq<Handler>) returns (rest: seq<Handler>)
    ensures rest == []
  {
    var snapshot := handlers;
    rest := handlers;
    for i := 0 to |snapshot|
      invariant rest == snapshot[i..]
    {
      rest := RemoveFirst(rest, snapshot[i]);
    }
  }

  /** Lines 41-42: each root handler attached in turn. */
  method AddHandlers(handlers: seq<Handler>, added: seq<Handler>) returns (r: seq<Handler>)
    ensures r == AddAll(handlers, added)
  {
    r := handlers;
    for i := 0 to |added|
      invariant r == AddAll(handlers, added[..i])
    {
      assert added[..i + 1][..i] == added[..i];
      r := AddHandler(r, added[i]);
    }
    assert added[..|added|] == added;
  }

  // ---------------------------------------------------------------------
  // uvicorn's loggers (lines 30-45)
  // ---------------------------------------------------------------------

  /** `uvicorn.config.logger`, then the two loggers named in line 38. */
  function UvicornLoggers(configLogger: string): seq<string>
  {
    [configLogger, "uvicorn.error", "uvicorn.access"]
  }

  /** How lines 39-40 detach a logger's handlers: as the code is written, or as it evidently intends. */
  datatype Removal = AsWritten | Intended

  /** What stays attached after lines 39-40. */
  function Detached(hs: seq<Handler>, removal: Removal): (r: seq<Handler>)
    ensures forall x :: x in r ==> x in hs
    ensures removal.Intended? ==> r == []
  {
    match removal
    case AsWritten => AsWrittenRemovalDetachesOnly(hs, 0); AsWrittenRemoval(hs, 0)
    case Intended => []
  }

  /** The state of logger `n` before the loop, a fresh logger when it is not registered yet. */
  function Before(loggers: map<string, LoggerState>, n: string): LoggerState
  {
    if n in loggers then loggers[n] else NewLogger
  }

  /** One pass of the loop at lines 38-43: detached, re-attached to the root's handlers, not propagating. */
  function Reattach(loggers: map<string, LoggerState>, name: string, rootHandlers: seq<Handler>, removal: Removal): map<string, LoggerState>
  {
    var r := Registered(loggers, name);
    r[name := r[name].(handlers := AddAll(Detached(r[name].handlers, removal), rootHandlers), propagate := false)]
  }

  function ReattachAll(loggers: map<string, LoggerState>, names: seq<string>, rootHandlers: seq<Handler>, removal: Removal): (r: map<string, LoggerState>)
    ensures loggers.Keys <= r.Keys
    ensures forall n :: n in names ==> n in r
    decreases |names|
  {
    if |names| == 0 then loggers
    else Reattach(ReattachAll(loggers, names[..|names| - 1], rootHandlers, removal), names[|names| - 1], rootHandlers, removal)
  }

  /** One pass registers the named logger, sets it from its state before the pass, and changes no other logger. */
  lemma ReattachFacts(loggers: map<string, LoggerState>, name: string, rootHandlers: seq<Handler>, removal: Removal)
    ensures var r := Reattach(loggers, name, rootHandlers, removal);
      (forall n :: n in r <==> n in loggers || n == name) &&
      (forall n :: n in loggers && n != name ==> r[n] == loggers[n]) &&
      r[name] == Before(loggers, name).(handlers := AddAll(Detached(Before(loggers, name).handlers, removal), rootHandlers), propagate := false)
  {
  }

  /** The loop over the names is the loop over all but the last, then one pass for the last. */
  lemma ReattachAllLast(loggers: map<string, LoggerState>, names: seq<string>, rootHandlers: seq<Handler>, removal: Removal)
    requires |names| > 0
    ensures ReattachAll(loggers, names, rootHandlers, removal) ==
      Reattach(ReattachAll(loggers, names[..|names| - 1], rootHandlers, removal), names[|names| - 1], rootHandlers, removal)
  {
  }

  /** The loop registers exactly the named loggers. */
  lemma {:induction false} ReattachAllKeys(loggers: map<string, LoggerState>, names: seq<string>, rootHandlers: seq<Handler>, removal: Removal)
    ensures forall n :: n in ReattachAll(loggers, names, rootHandlers, removal) <==> n in loggers || n in names
    decreases |names|
  {
    if |names| > 0 {
      var init := names[..|names| - 1];
      var last := names[|names| - 1];
      var prev := ReattachAll(loggers, init, rootHandlers, removal);
      ReattachAllKeys(loggers, init, rootHandlers, removal);
      ReattachAllLast(loggers, names, rootHandlers, removal);
      ReattachFacts(prev, last, rootHandlers, removal);
      assert names == init + [last];
    }
  }

  /** The loop changes no logger it does not name. */
  lemma {:induction false} ReattachAllUnchanged(loggers: map<string, LoggerState>, names: seq<string>, rootHandlers: seq<Handler>, removal: Removal)
    ensures forall n :: n in loggers && n !in names ==> ReattachAll(loggers, names, rootHandlers, removal)[n] == loggers[n]
    decreases |names|
  {
    if |names| > 0 {
      var init := names[..|names| - 1];
      var last := names[|names| - 1];
      var prev := ReattachAll(loggers, init, rootHandlers, removal);
      ReattachAllUnchanged(loggers, init, rootHandlers, removal);
      ReattachAllLast(loggers, names, rootHandlers, removal);
      ReattachFacts(prev, last, rootHandlers, removal);
      assert names == init + [last];
    }
  }

  /** A named logger keeps its level. */
  lemma {:induction false} ReattachAllLevel(loggers: map<string, LoggerState>, names: seq<string>, rootHandlers: seq<Handler>, removal: Removal)
    ensures forall n :: n in names ==> ReattachAll(loggers, names, rootHandlers, removal)[n].level == Before(loggers, n).level
    decreases |names|
  {
    if |names| > 0 {
      var init := names[..|names| - 1];
      var last := names[|names| - 1];
      var prev := ReattachAll(loggers, init, rootHandlers, removal);
      ReattachAllLevel(loggers, init, rootHandlers, removal);
      ReattachAllUnchanged(loggers, init, rootHandlers, removal);
      ReattachAllKeys(loggers, init, rootHandlers, removal);
      ReattachAllLast(loggers, names, rootHandlers, removal);
      ReattachFacts(prev, last, rootHandlers, removal);
      assert names == init + [last];
      assert Before(prev, last).level == Before(loggers, last).level;
    }
  }

  /** Each named logger ends with every root handler attached and does not propagate, whichever removal runs. */
  lemma {:induction false} ReattachAllAttaches(loggers: map<string, LoggerState>, names: seq<string>, rootHandlers: seq<Handler>, removal: Removal)
    ensures forall n :: n in names ==>
      var s := ReattachAll(loggers, names, rootHandlers, removal)[n];
      !s.propagate && forall h :: h in rootHandlers ==> h in s.handlers
    decreases |names|
  {
    if |names| > 0 {
      var init := names[..|names| - 1];
      var last := names[|names| - 1];
      var prev := ReattachAll(loggers, init, rootHandlers, removal);
      ReattachAllAttaches(loggers, init, rootHandlers, removal);
      ReattachAllLast(loggers, names, rootHandlers, removal);
      ReattachFacts(prev, last, rootHandlers, removal);
      assert names == init + [last];
      AddAllMembers(Detached(Before(prev, last).handlers, removal), rootHandlers);
    }
  }

  /** The effect on one logger `n`, named once or under the intended removal. */
  lemma {:induction false} ReattachAllEffectAt(loggers: map<string, LoggerState>, names: seq<string>, rootHandlers: seq<Handler>, removal: Removal, n: string)
    requires n in names && (removal.Intended? || multiset(names)[n] == 1)
    ensures ReattachAll(loggers, names, rootHandlers, removal)[n] ==
      Before(loggers, n).(handlers := AddAll(Detached(Before(loggers, n).handlers, removal), rootHandlers), propagate := false)
    decreases |names|
  {
    var init := names[..|names| - 1];
    var last := names[|names| - 1];
    var prev := ReattachAll(loggers, init, rootHandlers, removal);
    ReattachAllLast(loggers, names, rootHandlers, removal);
    ReattachFacts(prev, last, rootHandlers, removal);
    assert names == init + [last];
    if n != last {
      assert multiset(names) == multiset(init) + multiset{last};
      ReattachAllEffectAt(loggers, init, rootHandlers, removal, n);
    } else if n in init {
      assert removal.Intended? by {
        assert multiset(names) == multiset(init) + multiset{last};
      }
      ReattachAllLevel(loggers, init, rootHandlers, removal);
    } else {
      ReattachAllKeys(loggers, init, rootHandlers, removal);
      ReattachAllUnchanged(loggers, init, rootHandlers, removal);
      assert Before(prev, n) == Before(loggers, n);
    }
  }

  /**
   * A logger named once, or any named logger under the intended removal,
   * ends with what the removal leaves of its own handlers followed by the
   * root's, not propagating, with its level.
   */
  lemma ReattachAllEffect(loggers: map<string, LoggerState>, names: seq<string>, rootHandlers: seq<Handler>, removal: Removal)
    ensures forall n :: n in names && (removal.Intended? || multiset(names)[n] == 1) ==>
      ReattachAll(loggers, names, rootHandlers, removal)[n] ==
      Before(loggers, n).(handlers := AddAll(Detached(Before(loggers, n).handlers, removal), rootHandlers), propagate := false)
  {
    forall n | n in names && (removal.Intended? || multiset(names)[n] == 1) {
      ReattachAllEffectAt(loggers, names, rootHandlers, removal, n);
    }
  }

  /** The loop over a longer prefix of the names is one more pass. */
  lemma ReattachAllStep(loggers: map<string, LoggerState>, names: seq<string>, i: nat, rootHandlers: seq<Handler>, removal: Removal)
    requires i < |names|
    ensures ReattachAll(loggers, names[..i + 1], rootHandlers, removal) ==
      Reattach(ReattachAll(loggers, names[..i], rootHandlers, removal), names[i], rootHandlers, removal)
  {
    assert names[..i + 1][..i] == names[..i];
  }

  lemma UpdateTwice(m: map<string, LoggerState>, n: string, a: LoggerState, b: LoggerState)
    ensures m[n := a][n := b] == m[n := b]
  {
  }

  /** Lines 38-43 as written. */
  method ReattachUvicorn(reg: Registry, names: seq<string>, rootHandlers: seq<Handler>)
    requires reg.Valid()
    modifies reg
    ensures reg.Valid() && reg.loggers == ReattachAll(old(reg.loggers), names, rootHandlers, AsWritten)
  {
    for i := 0 to |names|
      invariant reg.Valid() && reg.loggers == ReattachAll(old(reg.loggers), names[..i], rootHandlers, AsWritten)
    {
      ghost var before := reg.loggers;
      var logger := reg.GetLogger(names[i]);
      ghost var registered := reg.loggers;
      var rest := RemoveHandlersAsWritten(logger.handlers);
      var attached := AddHandlers(rest, rootHandlers);
      reg.SetHandlers(names[i], attached);
      ghost var attachedState := registered[names[i]].(handlers := attached);
      reg.SetPropagate(names[i], false);
      UpdateTwice(registered, names[i], attachedState, attachedState.(propagate := false));
      assert reg.loggers == Reattach(before, names[i], rootHandlers, AsWritten);
      ReattachAllStep(old(reg.loggers), names, i, rootHandlers, AsWritten);
    }
    assert names[..|names|] == names;
  }

  // ---------------------------------------------------------------------
  // The reset of named loggers (lines 47-51)
  // ---------------------------------------------------------------------

  /** One pass of the loop at lines 47-51: the root's handlers, no propagation, the root's level. */
  function ResetOne(loggers: map<string, LoggerState>, name: string): map<string, LoggerState>
    requires RootName in loggers
  {
    var r := Registered(loggers, name);
    r[name := LoggerState(r[RootName].handlers, false, r[RootName].level)]
  }

  /** The reset loop; the root keeps its handlers and its level throughout. */
  function ResetAll(loggers: map<string, LoggerState>, names: seq<string>): (r: map<string, LoggerState>)
    requires RootName in loggers
    ensures loggers.Keys <= r.Keys
    ensures r[RootName].handlers == loggers[RootName].handlers
    ensures r[RootName].level == loggers[RootName].level
    decreases |names|
  {
    if |names| == 0 then loggers
    else ResetOne(ResetAll(loggers, names[..|names| - 1]), names[|names| - 1])
  }

  /** Each named logger ends with the root's handlers and level and without propagation; no other logger changes. */
  lemma {:induction false} ResetAllEffect(loggers: map<string, LoggerState>, names: seq<string>)
    requires RootName in loggers
    ensures ResetAll(loggers, names).Keys == loggers.Keys + set n | n in names
    ensures forall n :: n in names ==>
      (ResetAll(loggers, names)[n] == LoggerState(loggers[RootName].handlers, false, loggers[RootName].level))
    ensures forall n :: n in loggers && n !in names ==> ResetAll(loggers, names)[n] == loggers[n]
    decreases |names|
  {
    if |names| > 0 {
      var init := names[..|names| - 1];
      ResetAllEffect(loggers, init);
      assert names == init + [names[|names| - 1]];
    }
  }

  /** The reset over a longer prefix of the names is one more pass. */
  lemma ResetAllStep(loggers: map<string, LoggerState>, names: seq<string>, i: nat)
    requires RootName in loggers && i < |names|
    ensures ResetAll(loggers, names[..i + 1]) == ResetOne(ResetAll(loggers, names[..i]), names[i])
  {
    assert names[..i + 1][..i] == names[..i];
  }

  /** Lines 47-51 as a loop over the registry. */
  method ResetLoggers(reg: Registry, names: seq<string>)
    requires reg.Valid()
    modifies reg
    ensures reg.Valid() && reg.loggers == ResetAll(old(reg.loggers), names)
  {
    for i := 0 to |names|
      invariant reg.Valid() && reg.loggers == ResetAll(old(reg.loggers), names[..i])
    {
      ghost var before := reg.loggers;
      var _ := reg.GetLogger(names[i]);
      ghost var registered := reg.loggers;
      ghost var root := registered[RootName];
      ghost var entry := registered[names[i]];
      reg.SetHandlers(names[i], reg.Root().handlers);
      reg.SetPropagate(names[i], false);
      assert reg.Root().level == root.level;
      reg.SetLevel(names[i], reg.Root().level);
      UpdateTwice(registered, names[i], entry.(handlers := root.handlers), entry.(handlers := root.handlers, propagate := false));
      UpdateTwice(registered, names[i], entry.(handlers := root.handlers, propagate := false), LoggerState(root.handlers, false, root.level));
      assert reg.loggers == ResetOne(before, names[i]);
      ResetAllStep(old(reg.loggers), names, i);
    }
    assert names[..|names|] == names;
  }

  // ---------------------------------------------------------------------
  // configure_logging (lines 8-51)
  // ---------------------------------------------------------------------

  /**
   * The registry after lines 30-51; `uvicorn` is the name of
   * `uvicorn.config.logger`, `None` when the import fails.  The code as
   * written is `AsWritten`; the corrected configuration is `Intended`.
   */
  function Configured(loggers: map<string, LoggerState>, uvicorn: Option<string>, names: seq<string>, removal: Removal): (r: map<string, LoggerState>)
    requires RootName in loggers
    ensures loggers.Keys <= r.Keys
  {
    var reattached :=
      if uvicorn.Some? then ReattachAll(loggers, UvicornLoggers(uvicorn.value), loggers[RootName].handlers, removal)
      else loggers;
    ResetAll(reattached, names)
  }

  /**
   * `configure_logging(level, json_logging, loggers_to_reset)` on a file
   * already read; `fileConfig` gives the loggers the rewritten file
   * describes.
   */
  method ConfigureLogging(config: Config, reg: Registry, level: string, jsonLogging: bool,
                          fileConfig: Ini -> map<string, LoggerState>, uvicorn: Option<string>,
                          loggersToReset: seq<string>)
    returns (err: Option<string>)
    requires config.Valid() && reg.Valid()
    modifies config, reg
    ensures err.Some? <==> RootSection !in old(config.entries)
    ensures err.Some? ==>
      err == Some(KeyErrorText(RootSection)) && config.entries == old(config.entries) && reg.loggers == old(reg.loggers)
    ensures err.None? ==> config.entries == Rewritten(old(config.entries), old(config.order), level, jsonLogging)
    ensures err.None? ==>
      reg.Valid() && reg.loggers == Configured(old(reg.loggers) + fileConfig(config.entries), uvicorn, loggersToReset, AsWritten)
  {
    err := RewriteConfig(config, level, jsonLogging);
    if err.Some? {
      return;
    }
    reg.ApplyFileConfig(fileConfig(config.entries));
    var rootHandlers := reg.Root().handlers;
    if uvicorn.Some? {
      ReattachUvicorn(reg, UvicornLoggers(uvicorn.value), rootHandlers);
    }
    ResetLoggers(reg, loggersToReset);
  }

  /** Lines 47-51: every logger named for reset ends with the root's final handlers and level, and does not propagate. */
  lemma ResetLoggersFollowRoot(loggers: map<string, LoggerState>, uvicorn: Option<string>, names: seq<string>, removal: Removal)
    requires RootName in loggers
    ensures var r := Configured(loggers, uvicorn, names, removal);
      RootName in r &&
      forall n :: n in names ==> n in r && r[n] == LoggerState(r[RootName].handlers, false, r[RootName].level)
  {
    var reattached :=
      if uvicorn.Some? then ReattachAll(loggers, UvicornLoggers(uvicorn.value), loggers[RootName].handlers, removal)
      else loggers;
    ResetAllEffect(reattached, names);
  }

  /** Lines 33-45 in the corrected configuration: uvicorn's loggers end with exactly the root's handlers and do not propagate. */
  lemma UvicornFollowsRoot(loggers: map<string, LoggerState>, configLogger: string, names: seq<string>)
    requires RootName in loggers && Distinct(loggers[RootName].handlers)
    ensures var r := Configured(loggers, Some(configLogger), names, Intended);
      forall n :: n in UvicornLoggers(configLogger) ==>
        n in r && r[n].handlers == loggers[RootName].handlers && !r[n].propagate
  {
    var rh := loggers[RootName].handlers;
    var uv := UvicornLoggers(configLogger);
    var reattached := ReattachAll(loggers, uv, rh, Intended);
    ReattachAllKeys(loggers, uv, rh, Intended);
    ReattachAllUnchanged(loggers, uv, rh, Intended);
    ReattachAllEffect(loggers, uv, rh, Intended);
    AddAllDistinct(rh);
    ResetAllEffect(reattached, names);
    assert reattached[RootName].handlers == rh;
  }

  /** Lines 33-45 as written: uvicorn's loggers end with every root handler attached and do not propagate. */
  lemma UvicornAttachesRoot(loggers: map<string, LoggerState>, configLogger: string, names: seq<string>)
    requires RootName in loggers
    ensures var r := Configured(loggers, Some(configLogger), names, AsWritten);
      forall n :: n in UvicornLoggers(configLogger) ==>
        n in r && !r[n].propagate && forall h :: h in loggers[RootName].handlers ==> h in r[n].handlers
  {
    var rh := loggers[RootName].handlers;
    var uv := UvicornLoggers(configLogger);
    var reattached := ReattachAll(loggers, uv, rh, AsWritten);
    ReattachAllKeys(loggers, uv, rh, AsWritten);
    ReattachAllUnchanged(loggers, uv, rh, AsWritten);
    ReattachAllAttaches(loggers, uv, rh, AsWritten);
    ResetAllEffect(reattached, names);
    assert forall h :: h in rh ==> h in reattached[RootName].handlers by {
      if RootName !in uv {
        assert reattached[RootName] == loggers[RootName];
      }
    }
  }

  /**
   * Lines 33-45 as written: a uvicorn logger named once and not reset keeps
   * the handlers of its own at odd positions, ahead of the root's.
   */
  lemma UvicornKeepsOddHandlers(loggers: map<string, LoggerState>, configLogger: string, names: seq<string>, n: string)
    requires RootName in loggers
    requires n in UvicornLoggers(configLogger) && multiset(UvicornLoggers(configLogger))[n] == 1 && n !in names
    requires Distinct(Before(loggers, n).handlers)
    ensures var r := Configured(loggers, Some(configLogger), names, AsWritten);
      n in r && r[n].handlers == AddAll(Odds(Before(loggers, n).handlers), loggers[RootName].handlers)
  {
    var rh := loggers[RootName].handlers;
    var uv := UvicornLoggers(configLogger);
    var reattached := ReattachAll(loggers, uv, rh, AsWritten);
    ReattachAllKeys(loggers, uv, rh, AsWritten);
    ReattachAllUnchanged(loggers, uv, rh, AsWritten);
    ReattachAllEffect(loggers, uv, rh, AsWritten);
    AsWrittenRemovalIsOdds(Before(loggers, n).handlers);
    ResetAllEffect(reattached, names);
  }

  /** Lines 44-45: without uvicorn only the loggers named for reset change. */
  lemma MissingUvicornChangesOnlyReset(loggers: map<string, LoggerState>, names: seq<string>, removal: Removal)
    requires RootName in loggers
    ensures forall n :: n in loggers && n !in names ==> Configured(loggers, None, names, removal)[n] == loggers[n]
  {
    ResetAllEffect(loggers, names);
  }

  /** The registry of the two examples below: a root with one handler and `uvicorn.access` with two. */
  function StaleExample(a: Handler, b: Handler, root: Handler, rootLevel: int, level: int): map<string, LoggerState>
  {
    map[RootName := LoggerState([root], true, rootLevel), "uvicorn.access" := LoggerState([a, b], true, level)]
  }

  /** As written, `uvicorn.access` with handlers `[a, b]` and a root with `[root]` ends with `[b, root]`. */
  lemma AsWrittenKeepsStaleHandler(a: Handler, b: Handler, root: Handler, rootLevel: int, level: int, configLogger: string, names: seq<string>)
    requires a != b && b != root
    requires configLogger != "uvicorn.access" && "uvicorn.access" !in names
    ensures Configured(StaleExample(a, b, root, rootLevel, level), Some(configLogger), names, AsWritten)["uvicorn.access"].handlers == [b, root]
  {
    var loggers := StaleExample(a, b, root, rootLevel, level);
    AccessNamedOnce(configLogger);
    assert Before(loggers, "uvicorn.access").handlers == [a, b];
    assert loggers[RootName].handlers == [root];
    UvicornKeepsOddHandlers(loggers, configLogger, names, "uvicorn.access");
    SecondThenRoot(a, b, root);
  }

  lemma AccessNamedOnce(configLogger: string)
    requires configLogger != "uvicorn.access"
    ensures multiset(UvicornLoggers(configLogger))["uvicorn.access"] == 1
  {
    assert UvicornLoggers(configLogger) == [configLogger, "uvicorn.error"] + ["uvicorn.access"];
  }

  lemma SecondThenRoot(a: Handler, b: Handler, root: Handler)
    requires b != root
    ensures AddAll(Odds([a, b]), [root]) == [b, root]
  {
    assert Odds([a, b]) == [b];
    assert [root][..0] == [];
  }

  /** In the corrected configuration the same logger ends with the root's handler alone. */
  lemma CorrectedDropsStaleHandler(a: Handler, b: Handler, root: Handler, rootLevel: int, level: int, configLogger: string, names: seq<string>)
    ensures Configured(StaleExample(a, b, root, rootLevel, level), Some(configLogger), names, Intended)["uvicorn.access"].handlers == [root]
  {
    var loggers := StaleExample(a, b, root, rootLevel, level);
    assert loggers[RootName].handlers == [root];
    UvicornFollowsRoot(loggers, configLogger, names);
  }
}
