/**
 The output format macros of the facade (`__px4_log_omit`, `__px4_log` and the
 six `__px4_log_*` variants) and the code-level call sites `PX4_LOG`,
 `PX4_INFO`, `PX4_PANIC`, `PX4_ERR`, `PX4_WARN`, `PX4_DEBUG`, whose expansion
 the build profile selects at compile time.
 */
module Templates {
  import opened Wrappers
  import opened Levels
  import opened Format

  /** The build profile: `TRACE_BUILD`, `DEBUG_BUILD`, `RELEASE_BUILD`, or none. */
  datatype Profile = TraceBuild | DebugBuild | ReleaseBuild | DefaultBuild

  /** The code-level logging macros. */
  datatype Site = Px4Log | Px4Info | Px4Panic | Px4Err | Px4Warn | Px4Debug

  /** The output format macros a call site can expand to. */
  datatype Macro =
    | LogOmit                          // __px4_log_omit
    | LogPlain                         // __px4_log
    | LogTimestamp                     // __px4_log_timestamp
    | LogTimestampThread               // __px4_log_timestamp_thread
    | LogFileAndLine                   // __px4_log_file_and_line
    | LogTimestampFileAndLine          // __px4_log_timestamp_file_and_line
    | LogThreadFileAndLine             // __px4_log_thread_file_and_line
    | LogTimestampThreadFileAndLine    // __px4_log_timestamp_thread_file_and_line

  /** The level each call site passes to its macro. */
  function SiteLevel(site: Site): Level
  {
    match site
    case Px4Log => Always
    case Px4Info => Always
    case Px4Panic => Panic
    case Px4Err => Error
    case Px4Warn => Warn
    case Px4Debug => Debug
  }

  /** The format string each macro pastes together, fragment by fragment;
      `None` for the macro that compiles the message out. */
  function MacroFormat(m: Macro, u: UserFormat): Option<seq<FmtToken>>
  {
    match m
    case LogOmit => None
    case LogPlain => Some([LevelFmt, UserFmt(u), EndFmt])
    case LogTimestamp => Some([LevelFmt, TimestampFmt, UserFmt(u), EndFmt])
    case LogTimestampThread => Some([LevelFmt, TimestampFmt, ThreadFmt, UserFmt(u), EndFmt])
    case LogFileAndLine =>
      Some([LevelFmt, TimestampFmt, UserFmt(u), FileAndLineFmt, EndFmt])
    case LogTimestampFileAndLine =>
      Some([LevelFmt, TimestampFmt, UserFmt(u), FileAndLineFmt, EndFmt])
    case LogThreadFileAndLine =>
      Some([LevelFmt, ThreadFmt, UserFmt(u), FileAndLineFmt, EndFmt])
    case LogTimestampThreadFileAndLine =>
      Some([LevelFmt, TimestampFmt, ThreadFmt, UserFmt(u), FileAndLineFmt, EndFmt])
  }

  /** The printf argument list each macro pastes together. */
  function MacroArgs(m: Macro, level: Level, vs: seq<Value>): Option<seq<ArgExpr>>
  {
    match m
    case LogOmit => None
    case LogPlain => Some([LevelStr(level)] + Lift(vs))
    case LogTimestamp => Some([LevelStr(level), ClockNow] + Lift(vs))
    case LogTimestampThread => Some([LevelStr(level), ClockNow, ThreadSelf] + Lift(vs))
    case LogFileAndLine =>
      Some([LevelStr(level), ClockNow] + Lift(vs) + [FileName, LineNumber])
    case LogTimestampFileAndLine =>
      Some([LevelStr(level), ClockNow] + Lift(vs) + [FileName, LineNumber])
    case LogThreadFileAndLine =>
      Some([LevelStr(level), ThreadSelf] + Lift(vs) + [FileName, LineNumber])
    case LogTimestampThreadFileAndLine =>
      Some([LevelStr(level), ClockNow, ThreadSelf] + Lift(vs) + [FileName, LineNumber])
  }

  /** The metadata fields each macro attaches; `None` when it omits the message. */
  function MacroFields(m: Macro): Option<seq<Field>>
  {
    match m
    case LogOmit => None
    case LogPlain => Some([Label])
    case LogTimestamp => Some([Label, Timestamp])
    case LogTimestampThread => Some([Label, Timestamp, Thread])
    case LogFileAndLine => Some([Label, Timestamp, FileAndLine])
    case LogTimestampFileAndLine => Some([Label, Timestamp, FileAndLine])
    case LogThreadFileAndLine => Some([Label, Thread, FileAndLine])
    case LogTimestampThreadFileAndLine => Some([Label, Timestamp, Thread, FileAndLine])
  }

  /** The macro a call site expands to under a build profile. */
  function Select(site: Site, profile: Profile): Macro
  {
    match (site, profile)
    case (Px4Log, _) => LogPlain
    case (Px4Info, _) => LogPlain
    case (Px4Panic, TraceBuild) => LogTimestampThreadFileAndLine
    case (Px4Err, TraceBuild) => LogTimestampThreadFileAndLine
    case (Px4Warn, TraceBuild) => LogTimestampThreadFileAndLine
    case (Px4Debug, TraceBuild) => LogTimestampThread
    case (Px4Panic, DebugBuild) => LogTimestampFileAndLine
    case (Px4Err, DebugBuild) => LogTimestampFileAndLine
    case (Px4Warn, DebugBuild) => LogTimestampFileAndLine
    case (Px4Debug, DebugBuild) => LogTimestamp
    case (Px4Panic, ReleaseBuild) => LogFileAndLine
    case (Px4Err, ReleaseBuild) => LogFileAndLine
    case (Px4Warn, ReleaseBuild) => LogOmit
    case (Px4Debug, ReleaseBuild) => LogOmit
    case (Px4Panic, DefaultBuild) => LogFileAndLine
    case (Px4Err, DefaultBuild) => LogFileAndLine
    case (Px4Warn, DefaultBuild) => LogFileAndLine
    case (Px4Debug, DefaultBuild) => LogOmit
  }

  /** The template of a call site under a build profile: `None` when the
      call is compiled out, else the fields its line carries. */
  function Template(site: Site, profile: Profile): Option<seq<Field>>
  {
    MacroFields(Select(site, profile))
  }

  /** Every template starts with the label, lists its fields in the fixed
      order, and never has file-and-line without the timestamp. */
  lemma TemplateShape(site: Site, profile: Profile)
    ensures var t := Template(site, profile);
            t.Some? ==> Canonical(t.value) && |t.value| > 0 && t.value[0] == Label
    ensures var t := Template(site, profile);
            t.Some? && FileAndLine in t.value ==> Timestamp in t.value
  {
  }

  /** Whether a template contains a field. */
  predicate HasField(site: Site, profile: Profile, f: Field)
  {
    Template(site, profile).Some? && f in Template(site, profile).value
  }

  /** Every macro's text is the fixed-order composition of its fields: the
      format and the argument list each macro pastes together are exactly
      `ComposeFormat` and `ComposeArgs` of its fields. */
  lemma MacroIsComposition(m: Macro, level: Level, u: UserFormat, vs: seq<Value>)
    ensures MacroFields(m).None? <==> m == LogOmit
    ensures MacroFormat(m, u).Some? == MacroArgs(m, level, vs).Some? == MacroFields(m).Some?
    ensures MacroFields(m).Some? ==>
              MacroFormat(m, u).value == ComposeFormat(MacroFields(m).value, u)
              && MacroArgs(m, level, vs).value == ComposeArgs(MacroFields(m).value, level, vs)
  {
    if m != LogOmit {
      MacroFormatIsComposition(m, u);
      MacroArgsIsComposition(m, level, vs);
    }
  }

  lemma MacroFormatIsComposition(m: Macro, u: UserFormat)
    requires m != LogOmit
    ensures MacroFormat(m, u).value == ComposeFormat(MacroFields(m).value, u)
  {
    var fs := MacroFields(m).value;
    var l, t, h, d := Label in fs, Timestamp in fs, Thread in fs, FileAndLine in fs;
    FormatPartsOf(fs, l, t, h, d);
    MacroFormatCase(m, u);
  }

  lemma MacroArgsIsComposition(m: Macro, level: Level, vs: seq<Value>)
    requires m != LogOmit
    ensures MacroArgs(m, level, vs).value == ComposeArgs(MacroFields(m).value, level, vs)
  {
    var fs := MacroFields(m).value;
    var l, t, h, d := Label in fs, Timestamp in fs, Thread in fs, FileAndLine in fs;
    ArgsPartsOf(fs, level, l, t, h, d);
    MacroArgsCase(m, level, vs);
  }

  /** Each macro's format text, with the presence of each field read off
      its field list. */
  lemma MacroFormatCase(m: Macro, u: UserFormat)
    requires m != LogOmit
    ensures var fs := MacroFields(m).value;
            var l, t, h, d := Label in fs, Timestamp in fs, Thread in fs, FileAndLine in fs;
            MacroFormat(m, u).value
              == (if l then [LevelFmt] else []) + (if t then [TimestampFmt] else [])
                 + (if h then [ThreadFmt] else []) + [UserFmt(u)]
                 + (if d then [FileAndLineFmt] else []) + [EndFmt]
  {
  }

  /** Each macro's argument text, with the presence of each field read off
      its field list. */
  lemma MacroArgsCase(m: Macro, level: Level, vs: seq<Value>)
    requires m != LogOmit
    ensures var fs := MacroFields(m).value;
            var l, t, h, d := Label in fs, Timestamp in fs, Thread in fs, FileAndLine in fs;
            MacroArgs(m, level, vs).value
              == (if l then [LevelStr(level)] else []) + (if t then [ClockNow] else [])
                 + (if h then [ThreadSelf] else []) + Lift(vs)
                 + (if d then [FileName, LineNumber] else [])
  {
  }

  /** The format parts of a field list whose membership is known. */
  lemma FormatPartsOf(fs: seq<Field>, l: bool, t: bool, h: bool, d: bool)
    requires (Label in fs <==> l) && (Timestamp in fs <==> t)
    requires (Thread in fs <==> h) && (FileAndLine in fs <==> d)
    ensures FormatPart(fs, Label) == (if l then [LevelFmt] else [])
    ensures FormatPart(fs, Timestamp) == (if t then [TimestampFmt] else [])
    ensures FormatPart(fs, Thread) == (if h then [ThreadFmt] else [])
    ensures FormatPart(fs, FileAndLine) == (if d then [FileAndLineFmt] else [])
  {
  }

  /** The argument parts of a field list whose membership is known. */
  lemma ArgsPartsOf(fs: seq<Field>, level: Level, l: bool, t: bool, h: bool, d: bool)
    requires (Label in fs <==> l) && (Timestamp in fs <==> t)
    requires (Thread in fs <==> h) && (FileAndLine in fs <==> d)
    ensures ArgsPart(fs, Label, level) == (if l then [LevelStr(level)] else [])
    ensures ArgsPart(fs, Timestamp, level) == (if t then [ClockNow] else [])
    ensures ArgsPart(fs, Thread, level) == (if h then [ThreadSelf] else [])
    ensures ArgsPart(fs, FileAndLine, level) == (if d then [FileName, LineNumber] else [])
  {
  }

  /** `__px4_log_file_and_line` pastes the timestamp fragment and argument,
      so it expands to exactly what `__px4_log_timestamp_file_and_line` does. */
  lemma FileAndLineMacroCarriesTimestamp(level: Level, u: UserFormat, vs: seq<Value>)
    ensures MacroFormat(LogFileAndLine, u).Some?
    ensures TimestampFmt in MacroFormat(LogFileAndLine, u).value
    ensures MacroFormat(LogFileAndLine, u) == MacroFormat(LogTimestampFileAndLine, u)
    ensures MacroArgs(LogFileAndLine, level, vs) == MacroArgs(LogTimestampFileAndLine, level, vs)
  {
  }

  /** Exactly three (site, profile) pairs are compiled out: WARN and DEBUG in
      a Release build and DEBUG in the default build. */
  lemma OmittedPairs(site: Site, profile: Profile)
    ensures Template(site, profile).None? <==>
              (site == Px4Warn && profile == ReleaseBuild)
              || (site == Px4Debug && (profile == ReleaseBuild || profile == DefaultBuild))
  {
  }

  /** `PX4_LOG` and `PX4_INFO` carry only the label, in every profile. */
  lemma UnconditionalSites(profile: Profile)
    ensures Template(Px4Log, profile) == Some([Label])
    ensures Template(Px4Info, profile) == Some([Label])
    ensures SiteLevel(Px4Log) == SiteLevel(Px4Info) == Always
  {
  }

  /** The templates of the leveled call sites, profile by profile. */
  lemma TemplateTable(site: Site)
    requires site in {Px4Panic, Px4Err, Px4Warn}
    ensures Template(site, TraceBuild) == Some([Label, Timestamp, Thread, FileAndLine])
    ensures Template(site, DebugBuild) == Some([Label, Timestamp, FileAndLine])
    ensures site != Px4Warn ==> Template(site, ReleaseBuild) == Some([Label, Timestamp, FileAndLine])
    ensures Template(site, DefaultBuild) == Some([Label, Timestamp, FileAndLine])
    ensures Template(Px4Debug, TraceBuild) == Some([Label, Timestamp, Thread])
    ensures Template(Px4Debug, DebugBuild) == Some([Label, Timestamp])
    ensures Template(Px4Debug, ReleaseBuild) == None
    ensures Template(Px4Debug, DefaultBuild) == None
  {
  }

  /** The thread tag appears only in a Trace build. */
  lemma ThreadOnlyInTrace(site: Site, profile: Profile)
    ensures HasField(site, profile, Thread) <==>
              profile == TraceBuild && site in {Px4Panic, Px4Err, Px4Warn, Px4Debug}
  {
  }
}
