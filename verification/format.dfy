/**
 Composition of one log line: the printf format, as a sequence of abstract
 fragments, and the argument list, as a sequence of abstract argument
 expressions. Both are built in one fixed order — label, timestamp, thread,
 user format, file-and-line, newline — and this module proves that the two
 line up: each metadata format fragment consumes exactly the arguments its
 field contributes, and the user's arguments sit in the slot of the user's
 format.
 */
module Format {
  import opened Wrappers
  import opened Levels

  /** The optional metadata fields of a line. */
  datatype Field = Label | Timestamp | Thread | FileAndLine

  /** Position of a field in the fixed composition order. */
  function FieldPos(f: Field): nat
  {
    match f
    case Label => 0
    case Timestamp => 1
    case Thread => 2
    case FileAndLine => 3
  }

  /** Fields listed in strictly increasing composition order (so each at most once). */
  predicate Canonical(fs: seq<Field>)
  {
    forall i, j :: 0 <= i < j < |fs| ==> FieldPos(fs[i]) < FieldPos(fs[j])
  }

  /** The types a printf conversion can demand. */
  datatype ArgType = StrType | U64Type | UIntType | IntType

  /** An evaluated printf argument. */
  datatype Value = Str(s: string) | U64(n: nat) | UInt(n: nat) | Int(i: int)

  function TypeOf(v: Value): ArgType
  {
    match v
    case Str(_) => StrType
    case U64(_) => U64Type
    case UInt(_) => UIntType
    case Int(_) => IntType
  }

  function Types(vs: seq<Value>): seq<ArgType>
  {
    if |vs| == 0 then [] else [TypeOf(vs[0])] + Types(vs[1..])
  }

  /** The caller's format string `FMT`: its text and the conversions it holds. */
  datatype UserFormat = UserFormat(text: string, conversions: seq<ArgType>)

  /** One string-literal fragment of the composed format. */
  datatype FmtToken =
    | LevelFmt          // "%-5s "
    | TimestampFmt      // "%-10" PRIu64 " "
    | ThreadFmt         // "%#X "
    | UserFmt(user: UserFormat)
    | FileAndLineFmt    // " (file %s line %u)"
    | EndFmt            // "\n"

  /** The argument types a fragment consumes, in order. */
  function Conversions(t: FmtToken): seq<ArgType>
  {
    match t
    case LevelFmt => [StrType]
    case TimestampFmt => [U64Type]
    case ThreadFmt => [UIntType]
    case UserFmt(u) => u.conversions
    case FileAndLineFmt => [StrType, UIntType]
    case EndFmt => []
  }

  /** The argument types a whole format consumes, in order. */
  function FormatConversions(fmt: seq<FmtToken>): seq<ArgType>
  {
    if |fmt| == 0 then [] else Conversions(fmt[0]) + FormatConversions(fmt[1..])
  }

  /** Argument types consumed by the fragments before the first user format. */
  function ConversionsBeforeUser(fmt: seq<FmtToken>): seq<ArgType>
  {
    if |fmt| == 0 || fmt[0].UserFmt? then []
    else Conversions(fmt[0]) + ConversionsBeforeUser(fmt[1..])
  }

  /** An argument expression of the printf call, before evaluation. */
  datatype ArgExpr =
    | LevelStr(level: Level)   // __px4_log_level_str[level]
    | ClockNow                 // hrt_absolute_time()
    | ThreadSelf               // (unsigned int)pthread_self()
    | FileName                 // __FILE__
    | LineNumber               // __LINE__
    | UserArg(v: Value)        // one of the caller's arguments

  function ExprType(e: ArgExpr): ArgType
  {
    match e
    case LevelStr(_) => StrType
    case ClockNow => U64Type
    case ThreadSelf => UIntType
    case FileName => StrType
    case LineNumber => UIntType
    case UserArg(v) => TypeOf(v)
  }

  function ArgTypes(args: seq<ArgExpr>): seq<ArgType>
  {
    if |args| == 0 then [] else [ExprType(args[0])] + ArgTypes(args[1..])
  }

  /** The caller's arguments as argument expressions. */
  function Lift(vs: seq<Value>): (args: seq<ArgExpr>)
    ensures |args| == |vs|
    ensures forall i :: 0 <= i < |vs| ==> args[i] == UserArg(vs[i])
  {
    if |vs| == 0 then [] else [UserArg(vs[0])] + Lift(vs[1..])
  }

  /** The format fragment of each field. */
  function FieldFormat(f: Field): FmtToken
  {
    match f
    case Label => LevelFmt
    case Timestamp => TimestampFmt
    case Thread => ThreadFmt
    case FileAndLine => FileAndLineFmt
  }

  /** The argument fragment of each field. */
  function FieldArgs(f: Field, level: Level): seq<ArgExpr>
  {
    match f
    case Label => [LevelStr(level)]
    case Timestamp => [ClockNow]
    case Thread => [ThreadSelf]
    case FileAndLine => [FileName, LineNumber]
  }

  /** The field a format fragment belongs to; the user format and the
      newline belong to none. */
  function FieldOfToken(t: FmtToken): Option<Field>
  {
    match t
    case LevelFmt => Some(Label)
    case TimestampFmt => Some(Timestamp)
    case ThreadFmt => Some(Thread)
    case FileAndLineFmt => Some(FileAndLine)
    case _ => None
  }

  /** The field an argument starts; `__LINE__` continues file-and-line and
      the caller's arguments belong to no field. */
  function FieldOfArg(e: ArgExpr): Option<Field>
  {
    match e
    case LevelStr(_) => Some(Label)
    case ClockNow => Some(Timestamp)
    case ThreadSelf => Some(Thread)
    case FileName => Some(FileAndLine)
    case _ => None
  }

  /** The metadata fields a format carries, in order: the format with the
      user format and the newline stripped. */
  function FieldsOfFormat(fmt: seq<FmtToken>): seq<Field>
  {
    if |fmt| == 0 then []
    else
      match FieldOfToken(fmt[0])
      case Some(f) => [f] + FieldsOfFormat(fmt[1..])
      case None => FieldsOfFormat(fmt[1..])
  }

  /** The metadata fields an argument list carries, in order: the list with
      the caller's arguments stripped. */
  function FieldsOfArgs(args: seq<ArgExpr>): seq<Field>
  {
    if |args| == 0 then []
    else
      match FieldOfArg(args[0])
      case Some(f) => [f] + FieldsOfArgs(args[1..])
      case None => FieldsOfArgs(args[1..])
  }

  function FormatPart(fs: seq<Field>, f: Field): seq<FmtToken>
  {
    if f in fs then [FieldFormat(f)] else []
  }

  function ArgsPart(fs: seq<Field>, f: Field, level: Level): seq<ArgExpr>
  {
    if f in fs then FieldArgs(f, level) else []
  }

  /** The format of a line carrying the fields `fs`, composed in the fixed
      order shared by every output format macro. */
  function ComposeFormat(fs: seq<Field>, u: UserFormat): seq<FmtToken>
  {
    FormatPart(fs, Label) + FormatPart(fs, Timestamp) + FormatPart(fs, Thread)
    + [UserFmt(u)] + FormatPart(fs, FileAndLine) + [EndFmt]
  }

  /** The argument list of a line carrying the fields `fs`, in the same order. */
  function ComposeArgs(fs: seq<Field>, level: Level, vs: seq<Value>): seq<ArgExpr>
  {
    ArgsPart(fs, Label, level) + ArgsPart(fs, Timestamp, level) + ArgsPart(fs, Thread, level)
    + Lift(vs) + ArgsPart(fs, FileAndLine, level)
  }

  /** The one-element list `[f]` when `fs` contains `f`, else empty. */
  function Pick(fs: seq<Field>, f: Field): seq<Field>
  {
    if f in fs then [f] else []
  }

  /** `fs` rearranged into the fixed composition order. */
  function Arrange(fs: seq<Field>): seq<Field>
  {
    Pick(fs, Label) + Pick(fs, Timestamp) + Pick(fs, Thread) + Pick(fs, FileAndLine)
  }

  // ---------------------------------------------------------------------
  // Per-field fragments

  /** Each field's format fragment consumes exactly the arguments the
      field contributes: label a string, timestamp a uint64, thread an
      unsigned, file-and-line a string and an unsigned. */
  lemma FieldFragmentsAligned(level: Level)
    ensures Conversions(FieldFormat(Label)) == ArgTypes(FieldArgs(Label, level)) == [StrType]
    ensures Conversions(FieldFormat(Timestamp)) == ArgTypes(FieldArgs(Timestamp, level)) == [U64Type]
    ensures Conversions(FieldFormat(Thread)) == ArgTypes(FieldArgs(Thread, level)) == [UIntType]
    ensures Conversions(FieldFormat(FileAndLine)) == ArgTypes(FieldArgs(FileAndLine, level))
                                                  == [StrType, UIntType]
  {
    var fl := FieldArgs(FileAndLine, level);
    assert fl[1..] == [LineNumber] && fl[1..][1..] == [];
    assert ArgTypes(fl[1..]) == [UIntType];
  }

  /** Every field's fragments are recognised as that field again. */
  lemma FieldFragmentsRoundTrip(f: Field, level: Level)
    ensures FieldOfToken(FieldFormat(f)) == Some(f)
    ensures FieldsOfArgs(FieldArgs(f, level)) == [f]
  {
    var fl := FieldArgs(FileAndLine, level);
    assert fl[1..] == [LineNumber] && fl[1..][1..] == [];
    assert FieldsOfArgs(fl[1..]) == [];
  }

  // ---------------------------------------------------------------------
  // Distribution over concatenation

  lemma {:induction false} FormatConversionsAppend(a: seq<FmtToken>, b: seq<FmtToken>)
    ensures FormatConversions(a + b) == FormatConversions(a) + FormatConversions(b)
    decreases |a|
  {
    if |a| == 0 {
      assert a + b == b;
    } else {
      assert (a + b)[1..] == a[1..] + b;
      FormatConversionsAppend(a[1..], b);
    }
  }

  lemma {:induction false} ArgTypesAppend(a: seq<ArgExpr>, b: seq<ArgExpr>)
    ensures ArgTypes(a + b) == ArgTypes(a) + ArgTypes(b)
    decreases |a|
  {
    if |a| == 0 {
      assert a + b == b;
    } else {
      assert (a + b)[1..] == a[1..] + b;
      ArgTypesAppend(a[1..], b);
    }
  }

  lemma {:induction false} FieldsOfFormatAppend(a: seq<FmtToken>, b: seq<FmtToken>)
    ensures FieldsOfFormat(a + b) == FieldsOfFormat(a) + FieldsOfFormat(b)
    decreases |a|
  {
    if |a| == 0 {
      assert a + b == b;
    } else {
      assert (a + b)[1..] == a[1..] + b;
      FieldsOfFormatAppend(a[1..], b);
    }
  }

  lemma {:induction false} FieldsOfArgsAppend(a: seq<ArgExpr>, b: seq<ArgExpr>)
    ensures FieldsOfArgs(a + b) == FieldsOfArgs(a) + FieldsOfArgs(b)
    decreases |a|
  {
    if |a| == 0 {
      assert a + b == b;
    } else {
      assert (a + b)[1..] == a[1..] + b;
      FieldsOfArgsAppend(a[1..], b);
    }
  }

  /** The caller's arguments have the caller's types and carry no field. */
  lemma {:induction false} LiftTransparent(vs: seq<Value>)
    ensures ArgTypes(Lift(vs)) == Types(vs)
    ensures FieldsOfArgs(Lift(vs)) == []
    decreases |vs|
  {
    if |vs| > 0 {
      assert Lift(vs)[1..] == Lift(vs[1..]);
      LiftTransparent(vs[1..]);
    }
  }

  /** Each optional part of the composition: its format fragment and its
      argument fragment carry the same field, and line up. */
  lemma PartAligned(fs: seq<Field>, f: Field, level: Level)
    ensures FieldsOfFormat(FormatPart(fs, f)) == Pick(fs, f)
    ensures FieldsOfArgs(ArgsPart(fs, f, level)) == Pick(fs, f)
    ensures FormatConversions(FormatPart(fs, f)) == ArgTypes(ArgsPart(fs, f, level))
  {
    FieldFragmentsAligned(level);
    FieldFragmentsRoundTrip(f, level);
  }

  lemma FieldsOfFormatConcat(a: seq<FmtToken>, b: seq<FmtToken>, c: seq<FmtToken>,
                             d: seq<FmtToken>, e: seq<FmtToken>, f: seq<FmtToken>)
    ensures FieldsOfFormat(a + b + c + d + e + f)
         == FieldsOfFormat(a) + FieldsOfFormat(b) + FieldsOfFormat(c)
            + FieldsOfFormat(d) + FieldsOfFormat(e) + FieldsOfFormat(f)
  {
    FieldsOfFormatAppend(a, b);
    FieldsOfFormatAppend(a + b, c);
    FieldsOfFormatAppend(a + b + c, d);
    FieldsOfFormatAppend(a + b + c + d, e);
    FieldsOfFormatAppend(a + b + c + d + e, f);
  }

  lemma FormatConversionsConcat(a: seq<FmtToken>, b: seq<FmtToken>, c: seq<FmtToken>,
                                d: seq<FmtToken>, e: seq<FmtToken>, f: seq<FmtToken>)
    ensures FormatConversions(a + b + c + d + e + f)
         == FormatConversions(a) + FormatConversions(b) + FormatConversions(c)
            + FormatConversions(d) + FormatConversions(e) + FormatConversions(f)
  {
    FormatConversionsAppend(a, b);
    FormatConversionsAppend(a + b, c);
    FormatConversionsAppend(a + b + c, d);
    FormatConversionsAppend(a + b + c + d, e);
    FormatConversionsAppend(a + b + c + d + e, f);
  }

  lemma FieldsOfArgsConcat(a: seq<ArgExpr>, b: seq<ArgExpr>, c: seq<ArgExpr>,
                           d: seq<ArgExpr>, e: seq<ArgExpr>)
    ensures FieldsOfArgs(a + b + c + d + e)
         == FieldsOfArgs(a) + FieldsOfArgs(b) + FieldsOfArgs(c) + FieldsOfArgs(d) + FieldsOfArgs(e)
  {
    FieldsOfArgsAppend(a, b);
    FieldsOfArgsAppend(a + b, c);
    FieldsOfArgsAppend(a + b + c, d);
    FieldsOfArgsAppend(a + b + c + d, e);
  }

  lemma ArgTypesConcat(a: seq<ArgExpr>, b: seq<ArgExpr>, c: seq<ArgExpr>,
                       d: seq<ArgExpr>, e: seq<ArgExpr>)
    ensures ArgTypes(a + b + c + d + e)
         == ArgTypes(a) + ArgTypes(b) + ArgTypes(c) + ArgTypes(d) + ArgTypes(e)
  {
    ArgTypesAppend(a, b);
    ArgTypesAppend(a + b, c);
    ArgTypesAppend(a + b + c, d);
    ArgTypesAppend(a + b + c + d, e);
  }

  // ---------------------------------------------------------------------
  // Canonical order

  lemma CanonicalAppend(a: seq<Field>, b: seq<Field>)
    requires Canonical(a) && Canonical(b)
    requires forall i, j :: 0 <= i < |a| && 0 <= j < |b| ==> FieldPos(a[i]) < FieldPos(b[j])
    ensures Canonical(a + b)
  {
    forall i, j | 0 <= i < j < |a + b|
      ensures FieldPos((a + b)[i]) < FieldPos((a + b)[j])
    {
      if j < |a| {
        assert (a + b)[i] == a[i] && (a + b)[j] == a[j];
      } else if i < |a| {
        assert (a + b)[i] == a[i] && (a + b)[j] == b[j - |a|];
      } else {
        assert (a + b)[i] == b[i - |a|] && (a + b)[j] == b[j - |a|];
      }
    }
  }

  /** `Arrange` lists the fields of `fs` in canonical order. */
  lemma ArrangeCanonical(fs: seq<Field>)
    ensures Canonical(Arrange(fs))
  {
    var l, t, h, d := Pick(fs, Label), Pick(fs, Timestamp), Pick(fs, Thread), Pick(fs, FileAndLine);
    CanonicalAppend(l, t);
    CanonicalAppend(l + t, h);
    CanonicalAppend(l + t + h, d);
  }

  /** `Arrange` keeps exactly the fields of `fs`. */
  lemma ArrangeMembers(fs: seq<Field>, f: Field)
    ensures f in Arrange(fs) <==> f in fs
  {
    var l, t, h, d := Pick(fs, Label), Pick(fs, Timestamp), Pick(fs, Thread), Pick(fs, FileAndLine);
    assert f in Arrange(fs) <==> f in l || f in t || f in h || f in d;
  }

  /** A canonical field list is determined by the fields it contains. */
  lemma {:induction false} CanonicalUnique(a: seq<Field>, b: seq<Field>)
    requires Canonical(a) && Canonical(b)
    requires forall f :: f in a <==> f in b
    ensures a == b
    decreases |a|
  {
    assert |a| > 0 ==> a[0] in a;
    assert |b| > 0 ==> b[0] in b;
    if |a| > 0 && |b| > 0 {
      assert a[0] in b;
      var j :| 0 <= j < |b| && b[j] == a[0];
      assert b[0] in a;
      var i :| 0 <= i < |a| && a[i] == b[0];
      assert FieldPos(b[0]) <= FieldPos(a[0]);
      assert FieldPos(a[0]) <= FieldPos(b[0]);
      assert a[0] == b[0];
      forall f
        ensures f in a[1..] <==> f in b[1..]
      {
        if f in a[1..] {
          var k :| 0 <= k < |a| - 1 && a[1..][k] == f;
          assert FieldPos(a[0]) < FieldPos(a[k + 1]);
          assert f in b;
          var m :| 0 <= m < |b| && b[m] == f;
          assert m != 0;
          assert b[1..][m - 1] == f;
        }
        if f in b[1..] {
          var k :| 0 <= k < |b| - 1 && b[1..][k] == f;
          assert FieldPos(b[0]) < FieldPos(b[k + 1]);
          assert f in a;
          var m :| 0 <= m < |a| && a[m] == f;
          assert m != 0;
          assert a[1..][m - 1] == f;
        }
      }
      CanonicalUnique(a[1..], b[1..]);
      assert a == [a[0]] + a[1..];
      assert b == [b[0]] + b[1..];
    }
  }

  // ---------------------------------------------------------------------
  // Properties of the composition

  /** Stripping the user format and the newline from the composed format,
      and the caller's arguments from the composed argument list, leaves the
      same fields, in canonical order; for a canonical `fs` they are `fs`. */
  lemma ComposeFields(fs: seq<Field>, level: Level, u: UserFormat, vs: seq<Value>)
    ensures FieldsOfFormat(ComposeFormat(fs, u)) == Arrange(fs)
    ensures FieldsOfArgs(ComposeArgs(fs, level, vs)) == Arrange(fs)
    ensures Canonical(fs) ==> FieldsOfFormat(ComposeFormat(fs, u)) == fs
  {
    ComposeFormatFields(fs, u);
    ComposeArgsFields(fs, level, vs);
    if Canonical(fs) {
      ArrangeIdentity(fs);
    }
  }

  lemma ComposeFormatFields(fs: seq<Field>, u: UserFormat)
    ensures FieldsOfFormat(ComposeFormat(fs, u)) == Arrange(fs)
  {
    FieldsOfFormatConcat(FormatPart(fs, Label), FormatPart(fs, Timestamp), FormatPart(fs, Thread),
                         [UserFmt(u)], FormatPart(fs, FileAndLine), [EndFmt]);
    PartFormatFields(fs, Label);
    PartFormatFields(fs, Timestamp);
    PartFormatFields(fs, Thread);
    PartFormatFields(fs, FileAndLine);
    assert FieldsOfFormat([UserFmt(u)]) == [] && FieldsOfFormat([EndFmt]) == [];
  }

  lemma ComposeArgsFields(fs: seq<Field>, level: Level, vs: seq<Value>)
    ensures FieldsOfArgs(ComposeArgs(fs, level, vs)) == Arrange(fs)
  {
    FieldsOfArgsConcat(ArgsPart(fs, Label, level), ArgsPart(fs, Timestamp, level),
                       ArgsPart(fs, Thread, level), Lift(vs), ArgsPart(fs, FileAndLine, level));
    PartAligned(fs, Label, level);
    PartAligned(fs, Timestamp, level);
    PartAligned(fs, Thread, level);
    PartAligned(fs, FileAndLine, level);
    LiftTransparent(vs);
  }

  lemma PartFormatFields(fs: seq<Field>, f: Field)
    ensures FieldsOfFormat(FormatPart(fs, f)) == Pick(fs, f)
  {
  }

  /** A canonical list is its own arrangement. */
  lemma ArrangeIdentity(fs: seq<Field>)
    requires Canonical(fs)
    ensures Arrange(fs) == fs
  {
    ArrangeCanonical(fs);
    forall f
      ensures f in Arrange(fs) <==> f in fs
    {
      ArrangeMembers(fs, f);
    }
    CanonicalUnique(Arrange(fs), fs);
  }

  /** The format consumes exactly the argument types the argument list
      supplies, provided the caller's arguments match the caller's format. */
  lemma ComposeAligned(fs: seq<Field>, level: Level, u: UserFormat, vs: seq<Value>)
    requires Types(vs) == u.conversions
    ensures FormatConversions(ComposeFormat(fs, u)) == ArgTypes(ComposeArgs(fs, level, vs))
  {
    FormatConversionsConcat(FormatPart(fs, Label), FormatPart(fs, Timestamp), FormatPart(fs, Thread),
                            [UserFmt(u)], FormatPart(fs, FileAndLine), [EndFmt]);
    ArgTypesConcat(ArgsPart(fs, Label, level), ArgsPart(fs, Timestamp, level),
                   ArgsPart(fs, Thread, level), Lift(vs), ArgsPart(fs, FileAndLine, level));
    PartAligned(fs, Label, level);
    PartAligned(fs, Timestamp, level);
    PartAligned(fs, Thread, level);
    PartAligned(fs, FileAndLine, level);
    LiftTransparent(vs);
    assert FormatConversions([UserFmt(u)]) == u.conversions;
  }

  /** The caller's arguments occupy, in the argument list, exactly the slot
      the caller's format occupies in the format: they start after as many
      arguments as the fragments before `FMT` consume. */
  lemma ComposeUserSlot(fs: seq<Field>, level: Level, u: UserFormat, vs: seq<Value>)
    ensures var k := |ConversionsBeforeUser(ComposeFormat(fs, u))|;
            var args := ComposeArgs(fs, level, vs);
            k + |vs| <= |args| && args[k..k + |vs|] == Lift(vs)
  {
    var pre := ArgsPart(fs, Label, level) + ArgsPart(fs, Timestamp, level) + ArgsPart(fs, Thread, level);
    PrefixWidth(fs, level, u);
    assert ComposeArgs(fs, level, vs) == pre + Lift(vs) + ArgsPart(fs, FileAndLine, level);
    SliceMiddle(pre, Lift(vs), ArgsPart(fs, FileAndLine, level));
  }

  /** The fragments before `FMT` consume as many arguments as the argument
      fragments before the caller's arguments supply. */
  lemma PrefixWidth(fs: seq<Field>, level: Level, u: UserFormat)
    ensures |ConversionsBeforeUser(ComposeFormat(fs, u))|
         == |ArgsPart(fs, Label, level) + ArgsPart(fs, Timestamp, level) + ArgsPart(fs, Thread, level)|
  {
    var l, t, h := FormatPart(fs, Label), FormatPart(fs, Timestamp), FormatPart(fs, Thread);
    var rest := [UserFmt(u)] + FormatPart(fs, FileAndLine) + [EndFmt];
    assert ComposeFormat(fs, u) == (l + t + h) + rest;
    PrefixConversionsBeforeUser(l + t + h, rest);
    FormatConversionsAppend(l, t);
    FormatConversionsAppend(l + t, h);
    var la, ta, ha := ArgsPart(fs, Label, level), ArgsPart(fs, Timestamp, level),
                      ArgsPart(fs, Thread, level);
    ArgTypesAppend(la, ta);
    ArgTypesAppend(la + ta, ha);
    PartAligned(fs, Label, level);
    PartAligned(fs, Timestamp, level);
    PartAligned(fs, Thread, level);
    ArgTypesLength(la + ta + ha);
  }

  lemma SliceMiddle<T>(p: seq<T>, m: seq<T>, q: seq<T>)
    ensures (p + m + q)[|p|..|p| + |m|] == m
  {
  }

  lemma {:induction false} PrefixConversionsBeforeUser(a: seq<FmtToken>, b: seq<FmtToken>)
    requires forall i :: 0 <= i < |a| ==> !a[i].UserFmt?
    requires |b| > 0 && b[0].UserFmt?
    ensures ConversionsBeforeUser(a + b) == FormatConversions(a)
    decreases |a|
  {
    if |a| == 0 {
      assert a + b == b;
    } else {
      assert (a + b)[1..] == a[1..] + b;
      PrefixConversionsBeforeUser(a[1..], b);
    }
  }

  lemma {:induction false} ArgTypesLength(args: seq<ArgExpr>)
    ensures |ArgTypes(args)| == |args|
    decreases |args|
  {
    if |args| > 0 {
      ArgTypesLength(args[1..]);
    }
  }

  /** Layout of the composed format: it ends in the one newline fragment;
      the user format appears exactly once; the label, timestamp and thread
      fragments come before it and file-and-line after it. */
  lemma ComposeLayout(fs: seq<Field>, u: UserFormat)
    ensures var fmt := ComposeFormat(fs, u);
            && |fmt| >= 2 && fmt[|fmt| - 1] == EndFmt
            && (forall i :: 0 <= i < |fmt| - 1 ==> fmt[i] != EndFmt)
            && UserFmt(u) in fmt
    ensures var fmt := ComposeFormat(fs, u);
            forall i, j :: 0 <= i < |fmt| && 0 <= j < |fmt| && fmt[j].UserFmt? ==>
              (fmt[i] in {LevelFmt, TimestampFmt, ThreadFmt} ==> i < j)
              && (fmt[i] == FileAndLineFmt ==> j < i)
              && (fmt[i].UserFmt? ==> i == j)
  {
    var pre := FormatPart(fs, Label) + FormatPart(fs, Timestamp) + FormatPart(fs, Thread);
    var post := FormatPart(fs, FileAndLine);
    assert ComposeFormat(fs, u) == pre + [UserFmt(u)] + post + [EndFmt];
    SlotLayout(pre, UserFmt(u), post);
  }

  /** The layout facts for any format `pre + [user] + post + [EndFmt]` whose
      `pre` holds only leading fragments and whose `post` only file-and-line. */
  lemma SlotLayout(pre: seq<FmtToken>, user: FmtToken, post: seq<FmtToken>)
    requires user.UserFmt?
    requires forall i :: 0 <= i < |pre| ==> pre[i] in {LevelFmt, TimestampFmt, ThreadFmt}
    requires forall i :: 0 <= i < |post| ==> post[i] == FileAndLineFmt
    ensures var fmt := pre + [user] + post + [EndFmt];
            && |fmt| >= 2 && fmt[|fmt| - 1] == EndFmt
            && (forall i :: 0 <= i < |fmt| - 1 ==> fmt[i] != EndFmt)
            && user in fmt
    ensures var fmt := pre + [user] + post + [EndFmt];
            forall i, j :: 0 <= i < |fmt| && 0 <= j < |fmt| && fmt[j].UserFmt? ==>
              (fmt[i] in {LevelFmt, TimestampFmt, ThreadFmt} ==> i < j)
              && (fmt[i] == FileAndLineFmt ==> j < i)
              && (fmt[i].UserFmt? ==> i == j)
  {
    var fmt := pre + [user] + post + [EndFmt];
    assert forall i :: 0 <= i < |pre| ==> fmt[i] == pre[i];
    assert fmt[|pre|] == user;
    assert forall i :: |pre| < i < |pre| + 1 + |post| ==> fmt[i] == post[i - |pre| - 1];
    assert fmt[|fmt| - 1] == EndFmt;
  }
}
