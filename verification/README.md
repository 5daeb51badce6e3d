# PX4 logging facade, modelled in Dafny

This project models the logging facade of PX4's `src/platforms/px4_log.h`:
the `PX4_LOG`, `PX4_INFO`, `PX4_PANIC`, `PX4_ERR`, `PX4_WARN` and `PX4_DEBUG`
macros. Once the macro text is peeled away, a call goes through two decisions
and produces at most one `printf` call:

1. **Compile time.** The build profile (`TRACE_BUILD`, `DEBUG_BUILD`,
   `RELEASE_BUILD` or none) selects one output-format macro per call site.
   That macro is either `__px4_log_omit` or a template that attaches some of
   the metadata fields label, timestamp, thread id and file-and-line.
2. **Run time.** A template call writes its line only when
   `level <= __px4_log_level_current`.

The written line's format and argument list are built in one fixed order:
label, timestamp, thread, the caller's `FMT`, file-and-line, newline.

The model has four modules:

- `Levels` (`levels.dfy`): the five levels, their ranks 0..4, the default
  threshold (the WARN rank) and the runtime gate.
- `Format` (`format.dfy`): the format as a sequence of abstract fragments
  (`FmtToken`) and the argument list as a sequence of abstract expressions
  (`ArgExpr`). The reference definitions `ComposeFormat` and `ComposeArgs`
  build them in the fixed order. The lemmas show how the two sequences line
  up: which fields they carry, the argument types the format consumes, and
  where the caller's arguments sit.
- `Templates` (`templates.dfy`): the text of each output-format macro, copied
  fragment by fragment (`MacroFormat`, `MacroArgs`), and the per-profile
  selection table (`Select`, `Template`). `MacroIsComposition` proves that
  every macro's text is the fixed-order composition of its fields.
- `Facade` (`facade.dfy`): one call end to end (`Invoke`). It covers omission,
  the gate, evaluating the arguments and the resulting `printf` call. It also
  counts how often the clock and the thread id are read.

`Invoke` takes its external inputs as parameters:

- the threshold `__px4_log_level_current`;
- the contents of the label table `__px4_log_level_str`;
- the value `hrt_absolute_time()` returns;
- the value `pthread_self()` returns;
- `__FILE__` and `__LINE__`.

The `(unsigned int)` cast of the thread id is taken modulo 2^32.

Where the header's doc comments and its code differ, the model follows the
code:

- The comment on `__px4_log_file_and_line` (line 175) shows no timestamp.
  The macro body pastes the timestamp fragment and argument anyway
  (lines 181 and 186). So in Release and default builds the PANIC, ERR and
  WARN lines carry a timestamp, and this macro expands exactly as
  `__px4_log_timestamp_file_and_line` does.
- Every template, the DEBUG ones included, starts with the level label.
- "Never filtered" `PX4_LOG` and `PX4_INFO` still pass through the gate
  `0 <= __px4_log_level_current`. A negative threshold therefore silences
  them as well.

## Model

| member | source | states |
|---|---|---|
| Levels.Rank | src/platforms/px4_log.h:68-74 | every level's rank is below 5, the declared size of the label table, so `__px4_log_level_str[level]` stays in bounds |
| Levels.LevelOfRank | src/platforms/px4_log.h:68-72 | a rank denotes a level exactly when it is in 0..4, and then the level has that rank |
| Levels.RanksStrictlyIncreasing | src/platforms/px4_log.h:68-72 | the ranks are 0..4 and strictly increase ALWAYS < PANIC < ERROR < WARN < DEBUG |
| Levels.RankRoundTrip | src/platforms/px4_log.h:68-72 | ranks are distinct across levels, and mapping a rank back gives the level again |
| Levels.AlwaysPassesIffNonNegative | src/platforms/px4_log.h:90 | the ALWAYS level passes the gate exactly when the threshold is not negative |
| Levels.PassesMonotone | src/platforms/px4_log.h:90 | raising the threshold or lowering the level never closes the gate |
| Levels.DefaultThresholdAdmits | src/platforms/px4_log.h:77-78 | at the default threshold (the WARN rank) every level except DEBUG passes |
| Format.FieldFragmentsAligned | src/platforms/px4_log.h:92-100 | each field's format fragment consumes exactly the argument types its argument fragment supplies: label a string, timestamp a uint64, thread an unsigned, file-and-line a string then an unsigned |
| Format.FieldFragmentsRoundTrip | src/platforms/px4_log.h:92-100 | each field's format fragment and argument fragment are recognised as that field again |
| Format.LiftTransparent | src/platforms/px4_log.h:127 | the caller's arguments keep their types and carry no metadata field |
| Format.PartAligned | src/platforms/px4_log.h:92-100 | an optional field contributes the same field to both sequences, and its format part consumes exactly its argument part's types |
| Format.ArrangeCanonical | src/platforms/px4_log.h:122-257 | the fixed composition order lists fields in canonical order |
| Format.ArrangeMembers | src/platforms/px4_log.h:122-257 | the fixed composition order keeps exactly the fields given |
| Format.CanonicalUnique | src/platforms/px4_log.h:122-257 | two canonically ordered field lists with the same members are equal |
| Format.ComposeFields | src/platforms/px4_log.h:122-257 | with the user format and newline stripped, the composed format and the composed argument list both carry the given fields in the fixed order, and a canonical list is reproduced exactly |
| Format.ComposeAligned | src/platforms/px4_log.h:92-102 | if the caller's arguments match the caller's format, the composed format consumes exactly the types of the composed argument list |
| Format.ComposeUserSlot | src/platforms/px4_log.h:244-257 | the caller's arguments sit in the argument list at the position where the fragments before `FMT` stop consuming |
| Format.ComposeLayout | src/platforms/px4_log.h:122-257 | the composed format ends in one newline fragment that occurs nowhere else; `FMT` appears exactly once; label, timestamp and thread fragments come before it and file-and-line after it |
| Templates.TemplateShape | src/platforms/px4_log.h:268-307 | every selected template starts with the label, is in canonical order, and has no file-and-line without the timestamp |
| Templates.MacroIsComposition | src/platforms/px4_log.h:113-257 | exactly `__px4_log_omit` has no fields; each other macro pastes exactly the fixed-order composition of its fields, both format and arguments |
| Templates.FileAndLineMacroCarriesTimestamp | src/platforms/px4_log.h:178-211 | `__px4_log_file_and_line` contains the timestamp and expands like `__px4_log_timestamp_file_and_line` |
| Templates.OmittedPairs | src/platforms/px4_log.h:289-306 | a call is compiled out exactly for WARN and DEBUG in Release and for DEBUG in the default build |
| Templates.UnconditionalSites | src/platforms/px4_log.h:268-269 | `PX4_LOG` and `PX4_INFO` use the label-only template at the ALWAYS level in every profile |
| Templates.TemplateTable | src/platforms/px4_log.h:275-305 | the templates of PANIC/ERR/WARN and DEBUG, profile by profile |
| Templates.ThreadOnlyInTrace | src/platforms/px4_log.h:271-307 | the thread tag is attached exactly in a Trace build, by every site except `PX4_LOG`/`PX4_INFO` |
| Facade.Evaluate | src/platforms/px4_log.h:93-100 | evaluation keeps the length and order of the arguments, gives each argument its value, and gives each value its argument's type |
| Facade.Invoke | src/platforms/px4_log.h:90-113 | a call writes a line exactly when it is not compiled out and its level passes the gate; it reads the clock once exactly when its line carries the timestamp and the thread id once exactly when it carries the thread tag, and otherwise never |
| Facade.InvokeLine | src/platforms/px4_log.h:268-307 | a written line is the fixed-order composition of the selected template, with its arguments evaluated |
| Facade.InvokeLayout | src/platforms/px4_log.h:90-102 | a written line carries its template's fields in order and ends in the single newline; its first argument is the label table entry at the level's rank |
| Facade.ComposeCalls | src/platforms/px4_log.h:93-97 | a composed argument list reads the clock once exactly with the timestamp and the thread id once exactly with the thread tag; the caller's arguments read neither |
| Facade.LiftReadsNothing | src/platforms/px4_log.h:127 | the caller's arguments read neither the clock nor the thread id |
| Facade.OmittedNeverCalls | src/platforms/px4_log.h:63-66 | a compiled-out call writes nothing and reads neither the clock nor the thread id, at every threshold |
| Facade.FilteredNeverCalls | src/platforms/px4_log.h:90 | a call whose level fails the gate writes nothing and reads neither the clock nor the thread id |
| Facade.InvokeWellTyped | src/platforms/px4_log.h:92-102 | if the caller's arguments match the caller's format, the `printf` call made is well typed |
| Facade.InvokeUserSlot | src/platforms/px4_log.h:122-257 | the caller's values reach `printf` unchanged, in the slot of `FMT` |
| Facade.UnconditionalSitesEmit | src/platforms/px4_log.h:268-269 | `PX4_LOG`/`PX4_INFO` write their label-only line exactly when the threshold is not negative, and never read the clock or the thread id |
| Facade.DefaultThresholdFiltersDebug | src/platforms/px4_log.h:77-90 | at the default threshold a call writes exactly when it is compiled in and is not DEBUG |
| Facade.OnlyTimestampVaries | src/platforms/px4_log.h:93 | two calls that differ only in the clock reading write the same format and arguments, except the timestamp argument right after the label |
| Facade.OnlyClockDiffers | src/platforms/px4_log.h:93-100 | under environments that differ only in the clock, only clock reads evaluate differently |
| Facade.ClockSlot | src/platforms/px4_log.h:122-257 | in a composed argument list the only clock read is the timestamp argument, right after the label's |
| Facade.ScenarioWarnInDefaultBuild | src/platforms/px4_log.h:302-304 | default build, default threshold, one WARN call: the exact `printf` call and one clock read |
| Facade.ScenarioDebugInReleaseBuild | src/platforms/px4_log.h:296 | a DEBUG call in a Release build does nothing at any threshold |
| Facade.ScenarioErrInTraceBuild | src/platforms/px4_log.h:276 | an ERR call in a Trace build writes all four fields and reads the clock and thread id once each |
| Facade.ScenarioDebugInDefaultBuild | src/platforms/px4_log.h:305 | a DEBUG call in the default build does nothing, even with the threshold raised |
| Facade.NegativeThresholdSilencesLog | src/platforms/px4_log.h:90 | with a negative threshold no call writes anything, `PX4_LOG` and `PX4_INFO` included |

## Left out

- The ROS branch (lines 41-48) is left out: it delegates every macro to `ROS_WARN` from a foreign library.
- `printf` rendering is left out. This covers padding widths (`%-5s`, `%-10`), `%#X` hex output and the interpretation of the caller's format string. Fragments are abstract tokens, and a caller's format is modelled only by the argument types its conversions consume.
- The label strings are left out. The table `__px4_log_level_str` is defined outside this header, so its five entries are an input.
- `hrt_absolute_time()`, `pthread_self()`, `__FILE__` and `__LINE__` are inputs. The model counts the clock and thread-id reads instead of performing them. `__LINE__` is modelled as a natural number consumed by `%u`.
- Facade.Invoke: does not model that `do_nothing` still evaluates the caller's arguments, because their side effects are outside the facade. An omitted call is modelled as having no effect.
- Preprocessor mechanics are left out: textual pasting, `##__VA_ARGS__` comma elision, and the unbraced `if` the start-line macro opens (a following `else` would bind to it).
- Concurrent updates of `__px4_log_level_current` are left out. The threshold is a plain integer parameter of each call.
