/**
 One logging call end to end: the compile-time choice between omission and
 a template, the runtime gate, the evaluation of the printf arguments (which
 is where the clock and the thread id are read) and the single printf call
 that results. The external collaborators are inputs gathered in `Env`.
 */
module Facade {
  import opened Wrappers
  import opened Levels
  import opened Format
  import opened Templates

  /** `uint64_t`, the type of `hrt_absolute_time()` and of `pthread_t` here. */
  type u64 = n: int | 0 <= n < 0x1_0000_0000_0000_0000

  /** One more than the largest `unsigned int`. */
  const UIntModulus: nat := 0x1_0000_0000

  /** What a call reads from outside the facade: the contents of the label
      table `__px4_log_level_str`, the reading `hrt_absolute_time()` returns,
      the id `pthread_self()` returns, and the call site's `__FILE__` and
      `__LINE__`. */
  datatype Env = Env(labels: seq<string>, clock: u64, thread: u64, file: string, line: nat)

  /** The label table has its declared five entries. */
  predicate ValidEnv(env: Env)
  {
    |env.labels| == LevelCount
  }

  /** The value of one printf argument expression. */
  function Eval(e: ArgExpr, env: Env): Value
    requires ValidEnv(env)
  {
    match e
    case LevelStr(l) => Str(env.labels[Rank(l)])
    case ClockNow => U64(env.clock)
    case ThreadSelf => UInt(env.thread % UIntModulus)   // (unsigned int) truncation
    case FileName => Str(env.file)
    case LineNumber => UInt(env.line)
    case UserArg(v) => v
  }

  /** Evaluated arguments, with the number of clock and thread-id reads made. */
  datatype Evaluated = Evaluated(values: seq<Value>, clockCalls: nat, threadCalls: nat)

  /** Evaluates a printf argument list left to right; every value has the
      type its expression promises, so a format that matches the
      expressions matches the values. */
  function Evaluate(args: seq<ArgExpr>, env: Env): (r: Evaluated)
    requires ValidEnv(env)
    ensures |r.values| == |args|
    ensures forall i :: 0 <= i < |args| ==> r.values[i] == Eval(args[i], env)
    ensures Types(r.values) == ArgTypes(args)
  {
    if |args| == 0 then Evaluated([], 0, 0)
    else
      var rest := Evaluate(args[1..], env);
      var v := Eval(args[0], env);
      assert TypeOf(v) == ExprType(args[0]);
      assert ([v] + rest.values)[1..] == rest.values;
      Evaluated([v] + rest.values,
                rest.clockCalls + (if args[0] == ClockNow then 1 else 0),
                rest.threadCalls + (if args[0] == ThreadSelf then 1 else 0))
  }

  /** The printf call a line is written with. */
  datatype PrintfCall = PrintfCall(format: seq<FmtToken>, args: seq<Value>)

  /** The observable effect of one logging call: the printf call made, if
      any, and how often the clock and the thread id were read. */
  datatype Outcome = Outcome(line: Option<PrintfCall>, clockCalls: nat, threadCalls: nat)

  /** The call site is not compiled out, and its level passes the gate. */
  predicate Emits(site: Site, profile: Profile, threshold: int)
  {
    Template(site, profile).Some? && Passes(SiteLevel(site), threshold)
  }

  /** One logging call `site(FMT, args...)` in a build with `profile`, with
      `__px4_log_level_current == threshold`. It writes one line exactly when
      the call is not compiled out and its level passes the gate; it reads
      the clock once exactly when that line carries the timestamp and the
      thread id once exactly when it carries the thread tag, and otherwise
      never. */
  function Invoke(site: Site, profile: Profile, threshold: int, u: UserFormat,
                  vs: seq<Value>, env: Env): (o: Outcome)
    requires ValidEnv(env)
    ensures o.line.Some? <==> Emits(site, profile, threshold)
    ensures o.clockCalls == (if o.line.Some? && HasField(site, profile, Timestamp) then 1 else 0)
    ensures o.threadCalls == (if o.line.Some? && HasField(site, profile, Thread) then 1 else 0)
  {
    var m := Select(site, profile);
    var level := SiteLevel(site);
    if m == LogOmit then
      Outcome(None, 0, 0)   // do_nothing(level, ...)
    else if !Passes(level, threshold) then
      Outcome(None, 0, 0)
    else
      MacroCalls(m, level, u, vs, env);
      var ev := Evaluate(MacroArgs(m, level, vs).value, env);
      Outcome(Some(PrintfCall(MacroFormat(m, u).value, ev.values)), ev.clockCalls, ev.threadCalls)
  }

  /** A macro that writes a line reads the clock once exactly when its
      fields include the timestamp, and the thread id once exactly when they
      include the thread tag. */
  lemma MacroCalls(m: Macro, level: Level, u: UserFormat, vs: seq<Value>, env: Env)
    requires ValidEnv(env)
    requires m != LogOmit
    ensures MacroFields(m).Some? && MacroFormat(m, u).Some? && MacroArgs(m, level, vs).Some?
    ensures Evaluate(MacroArgs(m, level, vs).value, env).clockCalls
         == if Timestamp in MacroFields(m).value then 1 else 0
    ensures Evaluate(MacroArgs(m, level, vs).value, env).threadCalls
         == if Thread in MacroFields(m).value then 1 else 0
  {
    MacroIsComposition(m, level, u, vs);
    ComposeCalls(MacroFields(m).value, level, vs, env);
  }

  /** The line a call writes is the fixed-order composition of its
      template's fields, with the composed arguments evaluated. */
  lemma InvokeLine(site: Site, profile: Profile, threshold: int, u: UserFormat,
                   vs: seq<Value>, env: Env)
    requires ValidEnv(env)
    ensures var o := Invoke(site, profile, threshold, u, vs, env);
            o.line.Some? ==>
              var fs := Template(site, profile).value;
              var level := SiteLevel(site);
              o.line.value == PrintfCall(ComposeFormat(fs, u),
                                         Evaluate(ComposeArgs(fs, level, vs), env).values)
  {
    MacroIsComposition(Select(site, profile), SiteLevel(site), u, vs);
  }

  /** The line a call writes carries its template's fields in order, ends
      in the single newline, and its first argument is the label the level's
      rank indexes in the label table. */
  lemma InvokeLayout(site: Site, profile: Profile, threshold: int, u: UserFormat,
                     vs: seq<Value>, env: Env)
    requires ValidEnv(env)
    ensures var o := Invoke(site, profile, threshold, u, vs, env);
            o.line.Some? ==>
              && Template(site, profile).Some?
              && FieldsOfFormat(o.line.value.format) == Template(site, profile).value
              && var fmt := o.line.value.format;
                 && |fmt| > 0 && fmt[|fmt| - 1] == EndFmt
                 && (forall i :: 0 <= i < |fmt| - 1 ==> fmt[i] != EndFmt)
                 && |o.line.value.args| > 0
                 && o.line.value.args[0] == Str(env.labels[Rank(SiteLevel(site))])
  {
    InvokeLine(site, profile, threshold, u, vs, env);
    if Invoke(site, profile, threshold, u, vs, env).line.Some? {
      var fs := Template(site, profile).value;
      var level := SiteLevel(site);
      TemplateShape(site, profile);
      ComposeLayout(fs, u);
      ComposeFields(fs, level, u, vs);
      var args := ComposeArgs(fs, level, vs);
      assert ArgsPart(fs, Label, level) == [LevelStr(level)];
      assert args[0] == LevelStr(level);
      assert Evaluate(args, env).values[0] == Eval(args[0], env);
    }
  }

  // ---------------------------------------------------------------------
  // Clock and thread reads

  lemma {:induction false} EvaluateAppend(a: seq<ArgExpr>, b: seq<ArgExpr>, env: Env)
    requires ValidEnv(env)
    ensures Evaluate(a + b, env).clockCalls == Evaluate(a, env).clockCalls + Evaluate(b, env).clockCalls
    ensures Evaluate(a + b, env).threadCalls == Evaluate(a, env).threadCalls + Evaluate(b, env).threadCalls
    decreases |a|
  {
    if |a| == 0 {
      assert a + b == b;
    } else {
      var ab := a + b;
      assert ab[0] == a[0];
      assert ab[1..] == a[1..] + b;
      EvaluateAppend(a[1..], b, env);
    }
  }

  lemma EvaluateConcat(a: seq<ArgExpr>, b: seq<ArgExpr>, c: seq<ArgExpr>,
                       d: seq<ArgExpr>, e: seq<ArgExpr>, env: Env)
    requires ValidEnv(env)
    ensures Evaluate(a + b + c + d + e, env).clockCalls
         == Evaluate(a, env).clockCalls + Evaluate(b, env).clockCalls + Evaluate(c, env).clockCalls
            + Evaluate(d, env).clockCalls + Evaluate(e, env).clockCalls
    ensures Evaluate(a + b + c + d + e, env).threadCalls
         == Evaluate(a, env).threadCalls + Evaluate(b, env).threadCalls + Evaluate(c, env).threadCalls
            + Evaluate(d, env).threadCalls + Evaluate(e, env).threadCalls
  {
    EvaluateAppend(a, b, env);
    EvaluateAppend(a + b, c, env);
    EvaluateAppend(a + b + c, d, env);
    EvaluateAppend(a + b + c + d, e, env);
  }

  /** Each field's arguments read the clock only for the timestamp and the
      thread id only for the thread tag, once each. */
  lemma PartCalls(fs: seq<Field>, f: Field, level: Level, env: Env)
    requires ValidEnv(env)
    ensures Evaluate(ArgsPart(fs, f, level), env).clockCalls
         == if f == Timestamp && f in fs then 1 else 0
    ensures Evaluate(ArgsPart(fs, f, level), env).threadCalls
         == if f == Thread && f in fs then 1 else 0
  {
    var fl := [FileName, LineNumber];
    assert fl[1..] == [LineNumber] && fl[1..][1..] == [];
    assert Evaluate(fl[1..], env).clockCalls == 0 && Evaluate(fl[1..], env).threadCalls == 0;
  }

  /** Evaluating the composed argument list reads the clock once exactly
      when the fields include the timestamp, and the thread id once exactly
      when they include the thread tag; the caller's arguments read neither. */
  lemma ComposeCalls(fs: seq<Field>, level: Level, vs: seq<Value>, env: Env)
    requires ValidEnv(env)
    ensures Evaluate(ComposeArgs(fs, level, vs), env).clockCalls == if Timestamp in fs then 1 else 0
    ensures Evaluate(ComposeArgs(fs, level, vs), env).threadCalls == if Thread in fs then 1 else 0
  {
    EvaluateConcat(ArgsPart(fs, Label, level), ArgsPart(fs, Timestamp, level),
                   ArgsPart(fs, Thread, level), Lift(vs), ArgsPart(fs, FileAndLine, level), env);
    PartCalls(fs, Label, level, env);
    PartCalls(fs, Timestamp, level, env);
    PartCalls(fs, Thread, level, env);
    PartCalls(fs, FileAndLine, level, env);
    LiftReadsNothing(vs, env);
  }

  /** The caller's arguments read neither the clock nor the thread id. */
  lemma {:induction false} LiftReadsNothing(vs: seq<Value>, env: Env)
    requires ValidEnv(env)
    ensures Evaluate(Lift(vs), env).clockCalls == 0
    ensures Evaluate(Lift(vs), env).threadCalls == 0
    decreases |vs|
  {
    if |vs| > 0 {
      assert Lift(vs)[1..] == Lift(vs[1..]);
      LiftReadsNothing(vs[1..], env);
    }
  }

  /** A call that is compiled out writes nothing and reads neither the clock
      nor the thread id, whatever the threshold. */
  lemma OmittedNeverCalls(site: Site, profile: Profile, threshold: int, u: UserFormat,
                          vs: seq<Value>, env: Env)
    requires ValidEnv(env)
    requires Template(site, profile).None?
    ensures Invoke(site, profile, threshold, u, vs, env) == Outcome(None, 0, 0)
  {
  }

  /** A call whose level fails the gate writes nothing and reads neither the
      clock nor the thread id. */
  lemma FilteredNeverCalls(site: Site, profile: Profile, threshold: int, u: UserFormat,
                           vs: seq<Value>, env: Env)
    requires ValidEnv(env)
    requires !Passes(SiteLevel(site), threshold)
    ensures Invoke(site, profile, threshold, u, vs, env) == Outcome(None, 0, 0)
  {
  }

  // ---------------------------------------------------------------------
  // The printf call lines up

  /** When the caller's arguments match the caller's format, the printf call
      the facade makes is well typed: its format consumes exactly the types
      of its arguments, in order. */
  lemma InvokeWellTyped(site: Site, profile: Profile, threshold: int, u: UserFormat,
                        vs: seq<Value>, env: Env)
    requires ValidEnv(env)
    requires Types(vs) == u.conversions
    ensures var o := Invoke(site, profile, threshold, u, vs, env);
            o.line.Some? ==> FormatConversions(o.line.value.format) == Types(o.line.value.args)
  {
    InvokeLine(site, profile, threshold, u, vs, env);
    if Invoke(site, profile, threshold, u, vs, env).line.Some? {
      var fs := Template(site, profile).value;
      ComposeAligned(fs, SiteLevel(site), u, vs);
      assert Evaluate(ComposeArgs(fs, SiteLevel(site), vs), env).values
          == Invoke(site, profile, threshold, u, vs, env).line.value.args;
    }
  }

  /** The caller's arguments reach printf unchanged, in the slot the
      caller's format occupies: right after the arguments of the fragments
      before `FMT`. */
  lemma InvokeUserSlot(site: Site, profile: Profile, threshold: int, u: UserFormat,
                       vs: seq<Value>, env: Env)
    requires ValidEnv(env)
    ensures var o := Invoke(site, profile, threshold, u, vs, env);
            o.line.Some? ==>
              var k := |ConversionsBeforeUser(o.line.value.format)|;
              k + |vs| <= |o.line.value.args| && o.line.value.args[k..k + |vs|] == vs
  {
    InvokeLine(site, profile, threshold, u, vs, env);
    var o := Invoke(site, profile, threshold, u, vs, env);
    if o.line.Some? {
      var fs, level := Template(site, profile).value, SiteLevel(site);
      ComposedUserSlot(fs, level, u, vs, env);
      assert o.line.value.format == ComposeFormat(fs, u);
      assert o.line.value.args == Evaluate(ComposeArgs(fs, level, vs), env).values;
    }
  }

  /** In a composed line the caller's values sit in the slot of `FMT`. */
  lemma ComposedUserSlot(fs: seq<Field>, level: Level, u: UserFormat, vs: seq<Value>, env: Env)
    requires ValidEnv(env)
    ensures var k := |ConversionsBeforeUser(ComposeFormat(fs, u))|;
            var vals := Evaluate(ComposeArgs(fs, level, vs), env).values;
            k + |vs| <= |vals| && vals[k..k + |vs|] == vs
  {
    ComposeUserSlot(fs, level, u, vs);
    UserValuesPassThrough(ComposeArgs(fs, level, vs), |ConversionsBeforeUser(ComposeFormat(fs, u))|,
                          vs, env);
  }

  /** Evaluation hands the caller's arguments through unchanged. */
  lemma UserValuesPassThrough(args: seq<ArgExpr>, k: nat, vs: seq<Value>, env: Env)
    requires ValidEnv(env)
    requires k + |vs| <= |args| && args[k..k + |vs|] == Lift(vs)
    ensures Evaluate(args, env).values[k..k + |vs|] == vs
  {
    var vals := Evaluate(args, env).values;
    forall i | 0 <= i < |vs|
      ensures vals[k..k + |vs|][i] == vs[i]
    {
      assert args[k + i] == args[k..k + |vs|][i] == UserArg(vs[i]);
    }
  }

  // ---------------------------------------------------------------------
  // The runtime gate

  /** `PX4_LOG` and `PX4_INFO` write their label-only line exactly when the
      threshold is not negative, in every profile, and never read the clock
      or the thread id. */
  lemma UnconditionalSitesEmit(site: Site, profile: Profile, threshold: int, u: UserFormat,
                               vs: seq<Value>, env: Env)
    requires ValidEnv(env)
    requires site == Px4Log || site == Px4Info
    ensures var o := Invoke(site, profile, threshold, u, vs, env);
            && (o.line.Some? <==> threshold >= 0)
            && (o.line.Some? ==> o.line.value.format == [LevelFmt, UserFmt(u), EndFmt])
            && o.clockCalls == 0 && o.threadCalls == 0
  {
  }

  /** With the default threshold, DEBUG writes nothing in any profile — not
      even in a Trace or Debug build where it is compiled in — while PANIC,
      ERR and every non-omitted WARN write their line. */
  lemma DefaultThresholdFiltersDebug(site: Site, profile: Profile, u: UserFormat,
                                     vs: seq<Value>, env: Env)
    requires ValidEnv(env)
    ensures var o := Invoke(site, profile, DefaultThreshold, u, vs, env);
            o.line.Some? <==> site != Px4Debug && Template(site, profile).Some?
  {
    DefaultThresholdAdmits(SiteLevel(site));
  }

  /** Two calls that differ only in the clock reading write the same format
      and the same arguments, except the timestamp argument right after the
      label. */
  lemma OnlyTimestampVaries(site: Site, profile: Profile, threshold: int, u: UserFormat,
                            vs: seq<Value>, env1: Env, env2: Env)
    requires ValidEnv(env1)
    requires env2 == env1.(clock := env2.clock)
    ensures var o1 := Invoke(site, profile, threshold, u, vs, env1);
            var o2 := Invoke(site, profile, threshold, u, vs, env2);
            && o1.line.Some? == o2.line.Some?
            && (o1.line.Some? ==>
                  && o1.line.value.format == o2.line.value.format
                  && |o1.line.value.args| == |o2.line.value.args|
                  && forall i :: 0 <= i < |o1.line.value.args| ==>
                       o1.line.value.args[i] != o2.line.value.args[i] ==>
                         i == 1 && HasField(site, profile, Timestamp))
  {
    InvokeLine(site, profile, threshold, u, vs, env1);
    InvokeLine(site, profile, threshold, u, vs, env2);
    var o1 := Invoke(site, profile, threshold, u, vs, env1);
    var o2 := Invoke(site, profile, threshold, u, vs, env2);
    if o1.line.Some? {
      var fs := Template(site, profile).value;
      var level := SiteLevel(site);
      var args := ComposeArgs(fs, level, vs);
      TemplateShape(site, profile);
      ClockSlot(fs, level, vs);
      OnlyClockDiffers(args, env1, env2);
      assert o1.line.value.args == Evaluate(args, env1).values;
      assert o2.line.value.args == Evaluate(args, env2).values;
      assert |ArgsPart(fs, Label, level)| == 1;
    }
  }

  /** Evaluating under two environments that differ only in the clock gives
      different values only for clock reads. */
  lemma OnlyClockDiffers(args: seq<ArgExpr>, env1: Env, env2: Env)
    requires ValidEnv(env1)
    requires env2 == env1.(clock := env2.clock)
    ensures var v1, v2 := Evaluate(args, env1).values, Evaluate(args, env2).values;
            forall i :: 0 <= i < |args| && v1[i] != v2[i] ==> args[i] == ClockNow
  {
    forall i | 0 <= i < |args|
      ensures Eval(args[i], env1) != Eval(args[i], env2) ==> args[i] == ClockNow
    {
      EvalOnlyClockDiffers(args[i], env1, env2);
    }
  }

  lemma EvalOnlyClockDiffers(e: ArgExpr, env1: Env, env2: Env)
    requires ValidEnv(env1)
    requires env2 == env1.(clock := env2.clock)
    ensures ValidEnv(env2)
    ensures Eval(e, env1) != Eval(e, env2) ==> e == ClockNow
  {
  }

  /** The only clock read in a composed argument list is the timestamp
      argument, which follows the label's. */
  lemma ClockSlot(fs: seq<Field>, level: Level, vs: seq<Value>)
    ensures var args := ComposeArgs(fs, level, vs);
            forall i :: 0 <= i < |args| && args[i] == ClockNow ==>
              Timestamp in fs && i == |ArgsPart(fs, Label, level)|
  {
    var la, ta := ArgsPart(fs, Label, level), ArgsPart(fs, Timestamp, level);
    var ha, da := ArgsPart(fs, Thread, level), ArgsPart(fs, FileAndLine, level);
    assert ClockNow !in Lift(vs);
    OnlyInSecond(la, ta, ha, Lift(vs), da, ClockNow);
  }

  /** An element absent from all parts of a concatenation but the second is
      found, if at all, in the second. */
  lemma OnlyInSecond<T>(a: seq<T>, b: seq<T>, c: seq<T>, d: seq<T>, e: seq<T>, x: T)
    requires x !in a && x !in c && x !in d && x !in e
    ensures forall i :: 0 <= i < |a + b + c + d + e| && (a + b + c + d + e)[i] == x ==>
              |a| <= i < |a| + |b| && b[i - |a|] == x
  {
    var s := a + b + c + d + e;
    assert forall j :: 0 <= j < |a| ==> s[j] == a[j];
    assert forall j :: |a| + |b| <= j < |s| ==> s[j] == (c + d + e)[j - |a| - |b|];
    assert x !in c + d + e;
  }

  // ---------------------------------------------------------------------
  // Worked scenarios

  /** Default build, default threshold, `PX4_WARN("disk at %d%%", 87)`: one
      line with label, timestamp, the message and file-and-line. */
  lemma ScenarioWarnInDefaultBuild(env: Env)
    requires ValidEnv(env)
    ensures var u := UserFormat("disk at %d%%", [IntType]);
            var o := Invoke(Px4Warn, DefaultBuild, DefaultThreshold, u, [Int(87)], env);
            o == Outcome(Some(PrintfCall(
                   [LevelFmt, TimestampFmt, UserFmt(u), FileAndLineFmt, EndFmt],
                   [Str(env.labels[3]), U64(env.clock), Int(87), Str(env.file), UInt(env.line)])),
                 1, 0)
  {
    var u := UserFormat("disk at %d%%", [IntType]);
    var args := [LevelStr(Warn), ClockNow, UserArg(Int(87)), FileName, LineNumber];
    WarnDefaultText(u);
    var ev := Evaluate(args, env);
    WarnDefaultValues(args, env);
    var o := Invoke(Px4Warn, DefaultBuild, DefaultThreshold, u, [Int(87)], env);
    assert o.line == Some(PrintfCall(MacroFormat(LogFileAndLine, u).value, ev.values));
  }

  /** The macro the WARN site uses in the default build, and its text for
      one integer argument. */
  lemma WarnDefaultText(u: UserFormat)
    ensures Select(Px4Warn, DefaultBuild) == LogFileAndLine
    ensures HasField(Px4Warn, DefaultBuild, Timestamp) && !HasField(Px4Warn, DefaultBuild, Thread)
    ensures MacroFormat(LogFileAndLine, u).value
            == [LevelFmt, TimestampFmt, UserFmt(u), FileAndLineFmt, EndFmt]
    ensures MacroArgs(LogFileAndLine, Warn, [Int(87)]).value
            == [LevelStr(Warn), ClockNow, UserArg(Int(87)), FileName, LineNumber]
  {
    assert Lift([Int(87)]) == [UserArg(Int(87))];
  }

  /** The values the WARN line's arguments evaluate to. */
  lemma WarnDefaultValues(args: seq<ArgExpr>, env: Env)
    requires ValidEnv(env)
    requires args == [LevelStr(Warn), ClockNow, UserArg(Int(87)), FileName, LineNumber]
    ensures Evaluate(args, env).values
            == [Str(env.labels[3]), U64(env.clock), Int(87), Str(env.file), UInt(env.line)]
  {
    var ev := Evaluate(args, env);
    assert ev.values[0] == Str(env.labels[3]) && ev.values[1] == U64(env.clock);
    assert ev.values[2] == Int(87) && ev.values[3] == Str(env.file) && ev.values[4] == UInt(env.line);
  }

  /** Release build, `PX4_DEBUG("x=%d", 5)`: nothing at all, at any threshold. */
  lemma ScenarioDebugInReleaseBuild(threshold: int, env: Env)
    requires ValidEnv(env)
    ensures Invoke(Px4Debug, ReleaseBuild, threshold, UserFormat("x=%d", [IntType]), [Int(5)], env)
            == Outcome(None, 0, 0)
  {
  }

  /** Trace build, `PX4_ERR("fail %s", "io")` at the default threshold: label,
      timestamp, thread tag, message and file-and-line, in that order. */
  lemma ScenarioErrInTraceBuild(env: Env)
    requires ValidEnv(env)
    ensures var u := UserFormat("fail %s", [StrType]);
            var o := Invoke(Px4Err, TraceBuild, DefaultThreshold, u, [Str("io")], env);
            && o.line.Some?
            && o.line.value.format
               == [LevelFmt, TimestampFmt, ThreadFmt, UserFmt(u), FileAndLineFmt, EndFmt]
            && o.clockCalls == 1 && o.threadCalls == 1
  {
  }

  /** Default build with the threshold raised above DEBUG: `PX4_DEBUG` is
      compiled out, so still nothing. */
  lemma ScenarioDebugInDefaultBuild(threshold: int, u: UserFormat, vs: seq<Value>, env: Env)
    requires ValidEnv(env)
    requires threshold >= Rank(Debug)
    ensures Invoke(Px4Debug, DefaultBuild, threshold, u, vs, env) == Outcome(None, 0, 0)
  {
  }

  /** A negative threshold silences even `PX4_LOG` and `PX4_INFO`: the gate
      applies to the ALWAYS level too. */
  lemma NegativeThresholdSilencesLog(site: Site, profile: Profile, threshold: int,
                                     u: UserFormat, vs: seq<Value>, env: Env)
    requires ValidEnv(env)
    requires threshold < 0
    ensures Invoke(site, profile, threshold, u, vs, env) == Outcome(None, 0, 0)
  {
    RanksStrictlyIncreasing();
  }
}
