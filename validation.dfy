/**
 * The input validators of the creation wizard (src/helpers/validationHelpers.js):
 * `validatePorts` and `validateEnvVars`, each a grammar over a comma-separated list whose
 * entries are trimmed and whose blank entries are dropped.
 */
module Validation {
  import opened Wrappers
  import opened JsString
  import opened JsArray

  // ---------------------------------------------------------------------------
  // `Number(s)` is not NaN: the StringNumericLiteral grammar of ECMAScript
  // ---------------------------------------------------------------------------

  predicate AllDigits(s: string) { forall i :: 0 <= i < |s| ==> IsDigit(s[i]) }

  /** DecimalDigits: one or more decimal digits. */
  predicate IsDigits(s: string) { |s| > 0 && AllDigits(s) }

  predicate IsSign(c: char) { c == '+' || c == '-' }

  predicate IsExponentMark(c: char) { c == 'e' || c == 'E' }

  /** The mantissa of a decimal literal: digits with at most one `.` and at least one
      digit (`12`, `12.`, `.5`, `1.5`). */
  predicate IsMantissa(m: string) {
    && m != [] && m != "."
    && (forall i :: 0 <= i < |m| ==> IsDigit(m[i]) || m[i] == '.')
    && (forall i, j :: 0 <= i < j < |m| && m[i] == '.' ==> m[j] != '.')
  }

  /** An exponent's SignedInteger: an optional sign, then one or more digits. */
  predicate IsSignedInteger(x: string) {
    if x != [] && IsSign(x[0]) then IsDigits(x[1..]) else IsDigits(x)
  }

  /** The index of the first `e`/`E` in `t`, or `|t|` when there is none. */
  function ExponentAt(t: string): (i: nat)
    ensures i <= |t| && (i < |t| ==> IsExponentMark(t[i]))
    ensures forall j :: 0 <= j < i ==> !IsExponentMark(t[j])
  {
    if t == [] then 0
    else if IsExponentMark(t[0]) then 0
    else ExponentAt(t[1..]) + 1
  }

  /** StrUnsignedDecimalLiteral: `Infinity`, or a mantissa with an optional exponent. */
  predicate IsUnsignedDecimal(t: string) {
    || t == "Infinity"
    || var i := ExponentAt(t);
       if i == |t| then IsMantissa(t) else IsMantissa(t[..i]) && IsSignedInteger(t[i + 1..])
  }

  /** StrDecimalLiteral: an optional sign before an unsigned decimal literal. */
  predicate IsStrDecimal(t: string) {
    if t != [] && IsSign(t[0]) then IsUnsignedDecimal(t[1..]) else IsUnsignedDecimal(t)
  }

  predicate IsHexDigit(c: char) { IsDigit(c) || 'a' <= c <= 'f' || 'A' <= c <= 'F' }

  /** NonDecimalIntegerLiteral: `0x`/`0o`/`0b` (either case) and one or more digits of
      that base; no sign is allowed. */
  predicate IsNonDecimalInteger(t: string) {
    && |t| >= 3 && t[0] == '0'
    && (|| ((t[1] == 'x' || t[1] == 'X') && forall i :: 2 <= i < |t| ==> IsHexDigit(t[i]))
        || ((t[1] == 'o' || t[1] == 'O') && forall i :: 2 <= i < |t| ==> '0' <= t[i] <= '7')
        || ((t[1] == 'b' || t[1] == 'B') && forall i :: 2 <= i < |t| ==> '0' <= t[i] <= '1'))
  }

  /** `!isNaN(Number(s))` for a string `s`: after trimming, `s` is empty (which converts to 0)
      or a numeric literal. */
  predicate IsNumeric(s: string) {
    var t := Trim(s);
    t == [] || IsNonDecimalInteger(t) || IsStrDecimal(t)
  }

  // ---------------------------------------------------------------------------
  // The comma-separated list
  // ---------------------------------------------------------------------------

  /** What `map(p => p.trim()).filter(Boolean)` keeps of one piece. */
  function Kept(piece: string): (r: seq<string>)
    ensures |r| <= 1 && forall i :: 0 <= i < |r| ==> r[i] != []
  {
    var t := Trim(piece);
    if t == [] then [] else [t]
  }

  /** `pieces.map(p => p.trim()).filter(Boolean)`. */
  function NonBlank(pieces: seq<string>): (r: seq<string>)
    ensures forall i :: 0 <= i < |r| ==> r[i] != []
  {
    if pieces == [] then [] else Kept(pieces[0]) + NonBlank(pieces[1..])
  }

  lemma {:induction false} NonBlankAppend(a: seq<string>, b: seq<string>)
    ensures NonBlank(a + b) == NonBlank(a) + NonBlank(b)
  {
    if a != [] {
      assert (a + b)[0] == a[0];
      assert (a + b)[1..] == a[1..] + b;
      NonBlankAppend(a[1..], b);
    } else {
      assert a + b == b;
    }
  }

  /** `input.split(",").map(p => p.trim()).filter(Boolean)`: the non-blank entries, trimmed. */
  function Entries(input: string): (r: seq<string>)
    ensures forall i :: 0 <= i < |r| ==> r[i] != []
  {
    NonBlank(Split(input, ','))
  }

  /** The entries of `a + "," + b` are those of `a` followed by those of `b`. */
  lemma EntriesAppend(a: string, b: string)
    ensures Entries(a + [','] + b) == Entries(a) + Entries(b)
  {
    SplitAppend(a, b, ',');
    NonBlankAppend(Split(a, ','), Split(b, ','));
  }

  /** A blank input has no entries: every piece of it trims to nothing. */
  lemma BlankHasNoEntries(input: string)
    requires AllSpace(input)
    ensures Entries(input) == []
  {
    SplitOfBlank(input, ',');
    AllBlank(Split(input, ','));
  }

  /** Every piece of a blank string is blank. */
  lemma {:induction false} SplitOfBlank(s: string, sep: char)
    requires AllSpace(s)
    ensures forall i :: 0 <= i < |Split(s, sep)| ==> Trim(Split(s, sep)[i]) == []
  {
    if s != [] {
      SplitOfBlank(s[1..], sep);
      var rest := Split(s[1..], sep);
      if s[0] != sep {
        assert AllSpace([s[0]] + rest[0]);
      }
    }
  }

  lemma {:induction false} AllBlank(pieces: seq<string>)
    requires forall i :: 0 <= i < |pieces| ==> Trim(pieces[i]) == []
    ensures NonBlank(pieces) == []
  {
    if pieces != [] {
      AllBlank(pieces[1..]);
    }
  }

  /** `!x` for the string `find` returns: undefined and the empty string are falsy. */
  predicate NoneFound(found: Option<string>) {
    found.None? || found.value == []
  }

  /** When `find` runs over non-empty entries, nothing falsy can be found, so the validator
      holds exactly when no entry is rejected. */
  lemma NoneFoundOverEntries(entries: seq<string>, rejects: string -> bool)
    requires forall i :: 0 <= i < |entries| ==> entries[i] != []
    ensures NoneFound(Find(entries, rejects)) <==> forall i :: 0 <= i < |entries| ==> !rejects(entries[i])
  {
  }

  // ---------------------------------------------------------------------------
  // validatePorts
  // ---------------------------------------------------------------------------

  /** The `find` test of `validatePorts`: `[host, cont] = pair.split(":")`, and the pair is
      rejected when either is missing or empty, or either is not numeric. Fields after the
      second are ignored. */
  predicate PortPairRejected(pair: string) {
    var fields := Split(pair, ':');
    var host := fields[0];
    var cont: Option<string> := if |fields| >= 2 then Some(fields[1]) else None;
    host == [] || cont.None? || cont.value == [] || !IsNumeric(host) || !IsNumeric(cont.value)
  }

  /** `validatePorts(portInput)`. */
  function ValidatePorts(portInput: string): bool {
    if Trim(portInput) == [] then true
    else
      var ports := Entries(portInput);
      if |ports| == 0 then true
      else NoneFound(Find(ports, PortPairRejected))
  }

  /** A port mapping stated by position: a non-empty numeric host before the first `:`, and
      after it a non-empty numeric container part that ends at the next `:` or at the end. */
  predicate IsPortMapping(entry: string) {
    && ':' in entry
    && var i := IndexOf(entry, ':');
       var rest := entry[i + 1..];
       var cont := if ':' in rest then rest[..IndexOf(rest, ':')] else rest;
       i > 0 && IsNumeric(entry[..i]) && cont != [] && IsNumeric(cont)
  }

  /** The `find` test rejects exactly what is not a port mapping. */
  lemma PortPairRejectedMeaning(pair: string)
    ensures PortPairRejected(pair) <==> !IsPortMapping(pair)
  {
    SplitAtFirst(pair, ':');
    if ':' in pair {
      SplitAtFirst(pair[IndexOf(pair, ':') + 1..], ':');
    }
  }

  /** `validatePorts` holds exactly when every non-blank trimmed entry is a port mapping;
      in particular a blank input, or one whose entries are all blank, is valid. */
  lemma ValidatePortsMeaning(portInput: string)
    ensures ValidatePorts(portInput) <==> forall e :: e in Entries(portInput) ==> IsPortMapping(e)
  {
    var ports := Entries(portInput);
    if Trim(portInput) == [] {
      BlankHasNoEntries(portInput);
    }
    NoneFoundOverEntries(ports, PortPairRejected);
    forall e | e in ports ensures PortPairRejected(e) <==> !IsPortMapping(e) {
      PortPairRejectedMeaning(e);
    }
  }

  /** Validity of a port list is decided entry by entry. */
  lemma ValidatePortsAppend(a: string, b: string)
    ensures ValidatePorts(a + "," + b) == (ValidatePorts(a) && ValidatePorts(b))
  {
    EntriesAppend(a, b);
    ValidatePortsMeaning(a + "," + b);
    ValidatePortsMeaning(a);
    ValidatePortsMeaning(b);
  }

  // ---------------------------------------------------------------------------
  // validateEnvVars
  // ---------------------------------------------------------------------------

  predicate IsNameStart(c: char) { IsAsciiUpper(c) || IsAsciiLower(c) || c == '_' }
  predicate IsNameChar(c: char) { IsNameStart(c) || IsDigit(c) }

  /** `/^[A-Z_][A-Z0-9_]*$/i`: the `i` flag without `u` folds only ASCII letters. */
  predicate IsEnvName(n: string) {
    n != [] && IsNameStart(n[0]) && forall i :: 1 <= i < |n| ==> IsNameChar(n[i])
  }

  /** The `find` test of `validateEnvVars`: fewer than two `=`-separated parts, or a
      trimmed first part that is not a variable name. */
  predicate EnvAssignmentRejected(v: string) {
    var parts := Split(v, '=');
    |parts| < 2 || !IsEnvName(Trim(parts[0]))
  }

  /** `validateEnvVars(envInput)`. */
  function ValidateEnvVars(envInput: string): bool {
    if Trim(envInput) == [] then true
    else NoneFound(Find(Entries(envInput), EnvAssignmentRejected))
  }

  /** An assignment stated by position: an `=` occurs, and the trimmed text before the first
      one is a variable name; nothing is asked of the value. */
  predicate IsEnvAssignment(entry: string) {
    '=' in entry && IsEnvName(Trim(entry[..IndexOf(entry, '=')]))
  }

  lemma EnvAssignmentRejectedMeaning(v: string)
    ensures EnvAssignmentRejected(v) <==> !IsEnvAssignment(v)
  {
    SplitAtFirst(v, '=');
  }

  /** `validateEnvVars` holds exactly when every non-blank trimmed entry is an assignment. */
  lemma ValidateEnvVarsMeaning(envInput: string)
    ensures ValidateEnvVars(envInput) <==> forall e :: e in Entries(envInput) ==> IsEnvAssignment(e)
  {
    var vars := Entries(envInput);
    if Trim(envInput) == [] {
      BlankHasNoEntries(envInput);
    }
    NoneFoundOverEntries(vars, EnvAssignmentRejected);
    forall e | e in vars ensures EnvAssignmentRejected(e) <==> !IsEnvAssignment(e) {
      EnvAssignmentRejectedMeaning(e);
    }
  }

  /** Validity of an environment list is decided entry by entry. */
  lemma ValidateEnvVarsAppend(a: string, b: string)
    ensures ValidateEnvVars(a + "," + b) == (ValidateEnvVars(a) && ValidateEnvVars(b))
  {
    EntriesAppend(a, b);
    ValidateEnvVarsMeaning(a + "," + b);
    ValidateEnvVarsMeaning(a);
    ValidateEnvVarsMeaning(b);
  }

  /** An entry without `=` is never an assignment. */
  lemma EnvWithoutEquals(entry: string)
    requires '=' !in entry
    ensures EnvAssignmentRejected(entry)
  {
    SplitNoSeparator(entry, '=');
  }

  /** The value after the first `=` is unconstrained: a name, `=`, and any text form an
      assignment (`FOO=`, `A=b=c`). */
  lemma EnvValueUnconstrained(name: string, value: string)
    requires IsEnvName(name)
    ensures !EnvAssignmentRejected(name + "=" + value)
  {
    SplitAppend(name, value, '=');
    assert '=' !in name by { assert forall i :: 0 <= i < |name| ==> IsNameChar(name[i]); }
    SplitNoSeparator(name, '=');
    assert Trim(name) == name by {
      assert !IsSpace(name[0]) && !IsSpace(name[|name| - 1]);
      TrimOfUnpadded(name);
    }
  }

  /** An input with no comma and no surrounding white space is its own single entry. */
  lemma SingleEntry(e: string)
    requires e != [] && ',' !in e && !IsSpace(e[0]) && !IsSpace(e[|e| - 1])
    ensures Entries(e) == [e]
  {
    SplitNoSeparator(e, ',');
    TrimOfUnpadded(e);
    assert Kept(e) == [e];
    assert [e][1..] == [];
    assert NonBlank([e]) == Kept(e) + NonBlank([]);
  }

  /** Every non-empty run of decimal digits is numeric. */
  lemma DigitsAreNumeric(s: string)
    requires IsDigits(s)
    ensures IsNumeric(s)
  {
    TrimOfUnpadded(s);
    assert ExponentAt(s) == |s|;
  }

  /** A string beginning with a letter other than `I` cannot be numeric unless it is blank
      or a `0x`-style literal, which begins with a digit. */
  lemma WordNotNumeric(s: string)
    requires s != [] && IsAsciiLower(s[0]) && !IsSpace(s[|s| - 1])
    ensures !IsNumeric(s)
  {
    TrimOfUnpadded(s);
    var i := ExponentAt(s);
    if i == |s| {
      assert !IsMantissa(s) by { assert !(IsDigit(s[0]) || s[0] == '.'); }
    } else {
      assert !IsMantissa(s[..i]) by {
        if i > 0 { assert s[..i][0] == s[0]; assert !(IsDigit(s[0]) || s[0] == '.'); }
      }
    }
  }

  /** The first `:` of `h + ":" + t` is right after `h` when `h` has none. */
  lemma IndexAfterPrefix(h: string, t: string)
    requires ':' !in h
    ensures ':' in h + ":" + t && IndexOf(h + ":" + t, ':') == |h|
    ensures (h + ":" + t)[..|h|] == h && (h + ":" + t)[|h| + 1..] == t
  {
    var e := h + ":" + t;
    assert e[|h|] == ':';
  }

  /** Two runs of decimal digits around a `:` form a port mapping, and whatever follows a
      second `:` is ignored (`8080:80`, `1:2:3`). */
  lemma DigitPairIsPortMapping(h: string, c: string, tail: Option<string>)
    requires IsDigits(h) && IsDigits(c)
    ensures var e := h + ":" + c + (if tail.Some? then ":" + tail.value else "");
            IsPortMapping(e)
  {
    var t := c + (if tail.Some? then ":" + tail.value else "");
    assert ':' !in h by { assert forall k :: 0 <= k < |h| ==> IsDigit(h[k]); }
    assert ':' !in c by { assert forall k :: 0 <= k < |c| ==> IsDigit(c[k]); }
    assert h + ":" + c + (if tail.Some? then ":" + tail.value else "") == h + ":" + t;
    IndexAfterPrefix(h, t);
    if tail.Some? {
      IndexAfterPrefix(c, tail.value);
      assert t == c + ":" + tail.value;
    } else {
      assert t == c;
    }
    DigitsAreNumeric(h);
    DigitsAreNumeric(c);
  }

  /** A mapping whose host is missing (`:80`) or not numeric (`eighty:80`) is rejected. */
  lemma BadHostRejected(h: string, c: string)
    requires ':' !in h
    requires h == [] || !IsNumeric(h)
    ensures !IsPortMapping(h + ":" + c)
  {
    IndexAfterPrefix(h, c);
  }

  /** A digits-only list entry is its own single entry. */
  lemma DigitPairEntry(h: string, c: string, tail: Option<string>)
    requires IsDigits(h) && IsDigits(c)
    requires tail.Some? ==> IsDigits(tail.value)
    ensures var e := h + ":" + c + (if tail.Some? then ":" + tail.value else "");
            ValidatePorts(e)
  {
    var e := h + ":" + c + (if tail.Some? then ":" + tail.value else "");
    DigitPairShape(h, c, tail);
    DigitPairIsPortMapping(h, c, tail);
    SinglePortEntry(e);
  }

  /** A single unpadded entry is valid exactly when it is a port mapping. */
  lemma SinglePortEntry(e: string)
    requires e != [] && ',' !in e && !IsSpace(e[0]) && !IsSpace(e[|e| - 1])
    ensures ValidatePorts(e) <==> IsPortMapping(e)
  {
    SingleEntry(e);
    ValidatePortsMeaning(e);
  }

  lemma DigitPairShape(h: string, c: string, tail: Option<string>)
    requires IsDigits(h) && IsDigits(c)
    requires tail.Some? ==> IsDigits(tail.value)
    ensures var e := h + ":" + c + (if tail.Some? then ":" + tail.value else "");
            e != [] && ',' !in e && !IsSpace(e[0]) && !IsSpace(e[|e| - 1])
  {
    var e := h + ":" + c + (if tail.Some? then ":" + tail.value else "");
    assert forall k :: 0 <= k < |e| ==> IsDigit(e[k]) || e[k] == ':' by {
      forall k | 0 <= k < |e| ensures IsDigit(e[k]) || e[k] == ':' {
        if k < |h| { assert e[k] == h[k]; }
        else if k == |h| { }
        else if k < |h| + 1 + |c| { assert e[k] == c[k - |h| - 1]; }
        else if k == |h| + 1 + |c| { }
        else { assert e[k] == tail.value[k - |h| - |c| - 2]; }
      }
    }
  }

  // The examples below take the pieces of the input as parameters fixed by their
  // precondition, which keeps the verifier from evaluating every function on a literal.

  /** `"8080:80"` is accepted (a test of the repository). */
  lemma Accepts8080To80(h: string, c: string)
    requires h == "8080" && c == "80"
    ensures ValidatePorts(h + ":" + c)
  {
    DigitPairEntry(h, c, None);
    assert h + ":" + c + "" == h + ":" + c;
  }

  /** `"8080:80,443:443"` is accepted (a test of the repository). */
  lemma AcceptsTwoMappings(h1: string, c1: string, h2: string, c2: string)
    requires h1 == "8080" && c1 == "80" && h2 == "443" && c2 == "443"
    ensures ValidatePorts((h1 + ":" + c1) + "," + (h2 + ":" + c2))
  {
    assert IsDigits(h1) && IsDigits(c1) && IsDigits(h2) && IsDigits(c2);
    TwoDigitPairs(h1, c1, h2, c2);
  }

  lemma TwoDigitPairs(h1: string, c1: string, h2: string, c2: string)
    requires IsDigits(h1) && IsDigits(c1) && IsDigits(h2) && IsDigits(c2)
    ensures ValidatePorts((h1 + ":" + c1) + "," + (h2 + ":" + c2))
  {
    DigitPairValid(h1, c1);
    DigitPairValid(h2, c2);
    ValidatePortsAppend(h1 + ":" + c1, h2 + ":" + c2);
  }

  lemma DigitPairValid(h: string, c: string)
    requires IsDigits(h) && IsDigits(c)
    ensures ValidatePorts(h + ":" + c)
  {
    DigitPairEntry(h, c, None);
    assert h + ":" + c + "" == h + ":" + c;
  }

  /** `":80"` is rejected: the host is missing (a test of the repository). */
  lemma RejectsMissingHost(c: string)
    requires c == "80"
    ensures !ValidatePorts(":" + c)
  {
    BadHostRejected("", c);
    assert "" + ":" + c == ":" + c;
    SinglePortEntry(":" + c);
  }

  /** `"eighty:80"` is rejected: the host is not numeric (a test of the repository). */
  lemma RejectsWordHost(h: string, c: string)
    requires h == "eighty" && c == "80"
    ensures !ValidatePorts(h + ":" + c)
  {
    assert forall i :: 0 <= i < |h| ==> IsAsciiLower(h[i]);
    LowercaseHostRejected(h, c);
  }

  /** A host made of lower-case letters is never numeric, so the entry is rejected. */
  lemma LowercaseHostRejected(h: string, c: string)
    requires h != [] && forall i :: 0 <= i < |h| ==> IsAsciiLower(h[i])
    requires IsDigits(c)
    ensures !ValidatePorts(h + ":" + c)
  {
    LowercaseHostNotMapping(h, c);
    LowercaseHostShape(h, c);
    SinglePortEntry(h + ":" + c);
  }

  lemma LowercaseHostNotMapping(h: string, c: string)
    requires h != [] && forall i :: 0 <= i < |h| ==> IsAsciiLower(h[i])
    ensures !IsPortMapping(h + ":" + c)
  {
    WordNotNumeric(h);
    BadHostRejected(h, c);
  }

  lemma LowercaseHostShape(h: string, c: string)
    requires h != [] && forall i :: 0 <= i < |h| ==> IsAsciiLower(h[i])
    requires IsDigits(c)
    ensures var e := h + ":" + c;
            e != [] && ',' !in e && !IsSpace(e[0]) && !IsSpace(e[|e| - 1])
  {
    var e := h + ":" + c;
    assert e[0] == h[0] && e[|e| - 1] == c[|c| - 1];
    forall k | 0 <= k < |e| ensures e[k] != ',' {
      if k < |h| { assert e[k] == h[k]; }
      else if k > |h| { assert e[k] == c[k - |h| - 1]; }
    }
  }

  /** `"1:2:3"` is accepted: a third field is never looked at. */
  lemma AcceptsThirdField(h: string, c: string, t: string)
    requires h == "1" && c == "2" && t == "3"
    ensures ValidatePorts(h + ":" + c + ":" + t)
  {
    DigitPairEntry(h, c, Some(t));
    assert h + ":" + c + (":" + t) == h + ":" + c + ":" + t;
  }

  /** An empty input, and one whose entries are all blank, are valid. */
  lemma AcceptsBlankLists(s: string)
    requires s == "" || s == " , ,"
    ensures ValidatePorts(s)
  {
    if s == " , ," {
      var sp: string := " ";
      var a := sp + [','] + sp;
      assert AllSpace(sp);
      assert s == a + [','] + [];
      calc {
        Entries(s);
        { EntriesAppend(a, []); }
        Entries(a) + Entries([]);
        { EntriesAppend(sp, sp); }
        Entries(sp) + Entries(sp) + Entries([]);
        { BlankHasNoEntries(sp); BlankHasNoEntries([]); }
        [];
      }
      ValidatePortsMeaning(s);
    }
  }

  /** A single unpadded entry is a valid environment list exactly when it is an assignment. */
  lemma SingleEnvEntry(e: string)
    requires e != [] && ',' !in e && !IsSpace(e[0]) && !IsSpace(e[|e| - 1])
    ensures ValidateEnvVars(e) <==> IsEnvAssignment(e)
  {
    SingleEntry(e);
    ValidateEnvVarsMeaning(e);
  }

  /** `NAME=value` with a variable name and a comma-free value that does not end in white
      space is accepted, whatever the value holds (`FOO=`, `FOO=bar`, `A=b=c`). */
  lemma AcceptsAssignment(name: string, value: string)
    requires IsEnvName(name)
    requires ',' !in value && (value == [] || !IsSpace(value[|value| - 1]))
    ensures ValidateEnvVars(name + "=" + value)
  {
    EnvValueUnconstrained(name, value);
    EnvAssignmentRejectedMeaning(name + "=" + value);
    EnvNameShape(name);
    AssignmentShape(name, value);
    SingleEnvEntry(name + "=" + value);
  }

  /** A variable name is non-empty, starts with a non-space and holds neither `,` nor `=`. */
  lemma EnvNameShape(name: string)
    requires IsEnvName(name)
    ensures name != [] && !IsSpace(name[0]) && ',' !in name && '=' !in name
  {
    assert forall i :: 0 <= i < |name| ==> IsNameChar(name[i]);
  }

  lemma AssignmentShape(name: string, value: string)
    requires name != [] && !IsSpace(name[0]) && ',' !in name
    requires ',' !in value && (value == [] || !IsSpace(value[|value| - 1]))
    ensures var e := name + "=" + value;
            e != [] && ',' !in e && !IsSpace(e[0]) && !IsSpace(e[|e| - 1])
  {
    var e := name + "=" + value;
    assert e[0] == name[0];
    if value != [] { assert e[|e| - 1] == value[|value| - 1]; }
    forall k | 0 <= k < |e| ensures e[k] != ',' {
      if k < |name| { assert e[k] == name[k]; }
      else if k > |name| { assert e[k] == value[k - |name| - 1]; }
    }
  }

  /** An entry without `=` is rejected (`NOEQUALS`). */
  lemma RejectsWithoutEquals(e: string)
    requires e != [] && ',' !in e && '=' !in e && !IsSpace(e[0]) && !IsSpace(e[|e| - 1])
    ensures !ValidateEnvVars(e)
  {
    EnvWithoutEquals(e);
    EnvAssignmentRejectedMeaning(e);
    SingleEnvEntry(e);
  }

  /** A name that starts with a digit is rejected (`123BAD=x`). */
  lemma RejectsDigitFirstName(name: string, value: string)
    requires name != [] && IsDigit(name[0]) && '=' !in name
    requires ',' !in name && ',' !in value && (value == [] || !IsSpace(value[|value| - 1]))
    ensures !ValidateEnvVars(name + "=" + value)
  {
    DigitFirstRejected(name, value);
    EnvAssignmentRejectedMeaning(name + "=" + value);
    AssignmentShape(name, value);
    SingleEnvEntry(name + "=" + value);
  }

  lemma DigitFirstRejected(name: string, value: string)
    requires name != [] && IsDigit(name[0]) && '=' !in name
    ensures EnvAssignmentRejected(name + "=" + value)
  {
    SplitAppend(name, value, '=');
    SplitNoSeparator(name, '=');
    TrimStartKeeps(name);
  }

  /** Trimming a string that starts with a non-space keeps that first character. */
  lemma TrimStartKeeps(s: string)
    requires s != [] && !IsSpace(s[0])
    ensures Trim(s) != [] && Trim(s)[0] == s[0]
  {
    assert SkipSpace(s, 0) == 0;
  }

  /** The repository's examples for environment lists: `FOO=bar,BAZ=qux` and the empty list
      are accepted, `NOEQUALS` and `123BAD=x` are rejected. */
  lemma EnvExamples(a: string, b: string, c: string, d: string)
    requires a == "FOO" && b == "bar" && c == "BAZ" && d == "qux"
    ensures ValidateEnvVars((a + "=" + b) + "," + (c + "=" + d))
    ensures ValidateEnvVars("")
  {
    assert IsEnvName(a) && IsEnvName(c);
    AcceptsAssignment(a, b);
    AcceptsAssignment(c, d);
    ValidateEnvVarsAppend(a + "=" + b, c + "=" + d);
  }

  lemma RejectsNoEqualsExample(e: string)
    requires e == "NOEQUALS"
    ensures !ValidateEnvVars(e)
  {
    assert IsEnvName(e);
    EnvNameShape(e);
    assert !IsSpace(e[|e| - 1]);
    RejectsWithoutEquals(e);
  }

  lemma RejectsDigitFirstExample(name: string, value: string)
    requires name == "123BAD" && value == "x"
    ensures !ValidateEnvVars(name + "=" + value)
  {
    assert '=' !in name && ',' !in name && ',' !in value;
    RejectsDigitFirstName(name, value);
  }

}
