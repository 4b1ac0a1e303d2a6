/**
 * The browser-side checks of the ticket and account forms, and the look
 * of a notification. A form field is its value, its `type` attribute and
 * whether it carries `required`; JavaScript strings are sequences of UTF-16
 * code units, so lengths are counted in code units here too.
 */
module ClientValidation {
  import opened Wrappers

  /** The characters JavaScript's `trim` removes and its `\s` matches. */
  predicate IsJsSpace(c: char) {
    || c == '\t' || c == '\n' || c == '\U{B}' || c == '\U{C}' || c == '\r' || c == ' '
    || c == '\U{A0}' || c == '\U{1680}' || ('\U{2000}' <= c <= '\U{200A}')
    || c == '\U{2028}' || c == '\U{2029}' || c == '\U{202F}' || c == '\U{205F}'
    || c == '\U{3000}' || c == '\U{FEFF}'
  }

  predicate AllJsSpace(s: string) {
    forall k | 0 <= k < |s| :: IsJsSpace(s[k])
  }

  /** A prefix of `s` that starts with `s[0]`. */
  lemma PrefixCons<T>(s: seq<T>, n: nat)
    requires 1 <= n <= |s|
    ensures s[..n][0] == s[0] && s[..n][1..] == s[1..][..n - 1]
  {
  }

  /** All white space: the first character and the rest. */
  lemma AllJsSpaceHead(s: string)
    requires s != []
    ensures AllJsSpace(s) <==> IsJsSpace(s[0]) && AllJsSpace(s[1..])
  {
    if IsJsSpace(s[0]) && AllJsSpace(s[1..]) {
      forall k | 1 <= k < |s|
        ensures IsJsSpace(s[k])
      {
        assert s[k] == s[1..][k - 1];
      }
    }
  }

  /** A suffix of `s` that ends with its last element. */
  lemma SuffixSnoc<T>(s: seq<T>, k: nat)
    requires k < |s|
    ensures s[..|s| - 1][k..] + [s[|s| - 1]] == s[k..]
  {
  }

  /** `String.prototype.trimStart`: the leading white space removed. */
  function TrimStart(s: string): (r: string)
    ensures |r| <= |s| && r == s[|s| - |r|..]
    ensures r == [] <==> AllJsSpace(s)
    ensures r != [] ==> !IsJsSpace(r[0])
  {
    if s != [] && IsJsSpace(s[0]) then TrimStart(s[1..]) else s
  }

  /** What `trimStart` removes is white space only. */
  lemma {:induction false} TrimStartRemovesSpace(s: string)
    ensures AllJsSpace(s[..|s| - |TrimStart(s)|])
  {
    if s != [] && IsJsSpace(s[0]) {
      var r := TrimStart(s[1..]);
      TrimStartRemovesSpace(s[1..]);
      PrefixCons(s, |s| - |r|);
      AllJsSpaceHead(s[..|s| - |r|]);
    }
  }

  /** `String.prototype.trimEnd`: the trailing white space removed. */
  function TrimEnd(s: string): (r: string)
    ensures |r| <= |s| && r == s[..|r|]
    ensures AllJsSpace(s[|r|..])
    ensures r == [] <==> AllJsSpace(s)
    ensures r != [] ==> !IsJsSpace(r[|r| - 1])
  {
    if s != [] && IsJsSpace(s[|s| - 1]) then
      var r := TrimEnd(s[..|s| - 1]);
      SuffixSnoc(s, |r|);
      r
    else s
  }

  /** `String.prototype.trim`: white space removed at both ends, the middle kept as it is. */
  function Trim(s: string): (r: string)
    ensures r == [] <==> AllJsSpace(s)
    ensures r != [] ==> !IsJsSpace(r[0]) && !IsJsSpace(r[|r| - 1])
    ensures exists i, j | 0 <= i <= j <= |s| :: r == s[i..j] && AllJsSpace(s[..i]) && AllJsSpace(s[j..])
  {
    var t := TrimStart(s);
    TrimStartRemovesSpace(s);
    assert AllJsSpace(t) ==> t == [];
    var r := TrimEnd(t);
    var i := |s| - |t|;
    SliceOfSuffix(s, i, |r|);
    r
  }

  /** `s.length`: a character outside the Basic Multilingual Plane is two code units. */
  function Utf16Length(s: string): (n: nat)
    ensures |s| <= n <= 2 * |s|
  {
    if s == [] then 0 else Utf16Length(s[..|s| - 1]) + (if s[|s| - 1] as int >= 0x1_0000 then 2 else 1)
  }

  // ---------------------------------------------------------------------
  // The email pattern /^[^\s@]+@[^\s@]+\.[^\s@]+$/
  // ---------------------------------------------------------------------

  /** Matches `[^\s@]*`. */
  predicate Plain(s: string) {
    forall k | 0 <= k < |s| :: !IsJsSpace(s[k]) && s[k] != '@'
  }

  /**
   * `s` splits at `at` and `dot` into three non-empty plain runs, the first
   * two joined by `@`, the last two by a `.`.
   */
  predicate Parts(s: string, at: nat, dot: nat) {
    && 0 < at && at + 1 < dot && dot + 1 < |s|
    && s[at] == '@' && s[dot] == '.'
    && Plain(s[..at]) && Plain(s[at + 1..dot]) && Plain(s[dot + 1..])
  }

  /**
   * What the regular expression accepts: three non-empty plain runs, the
   * first two joined by `@`, the last two by a `.` (the middle run may hold
   * further dots).
   */
  ghost predicate EmailPattern(s: string) {
    exists at: nat, dot: nat :: Parts(s, at, dot)
  }

  function IndexOf(s: string, c: char): (r: Option<nat>)
    ensures r.None? <==> c !in s
    ensures r.Some? ==> r.value < |s| && s[r.value] == c && c !in s[..r.value]
  {
    if s == [] then None
    else if s[0] == c then Some(0)
    else
      var rest := IndexOf(s[1..], c);
      if rest.None? then None
      else
        assert s[..rest.value + 1] == [s[0]] + s[1..][..rest.value];
        Some(rest.value + 1)
  }

  predicate NoSpace(s: string) {
    forall k | 0 <= k < |s| :: !IsJsSpace(s[k])
  }

  /**
   * The check the pattern performs, in one pass: something before the one
   * `@`, no whitespace anywhere, and a `.` strictly inside what follows.
   */
  predicate LooksLikeEmail(s: string) {
    match IndexOf(s, '@')
    case None => false
    case Some(at) =>
      var domain := s[at + 1..];
      at > 0 && NoSpace(s) && '@' !in domain && |domain| >= 3 && '.' in domain[1..|domain| - 1]
  }

  lemma {:induction false} LooksLikeEmailMatches(s: string)
    requires LooksLikeEmail(s)
    ensures EmailPattern(s)
  {
    var at := IndexOf(s, '@').value;
    var domain := s[at + 1..];
    var inner := domain[1..|domain| - 1];
    var k :| 0 <= k < |inner| && inner[k] == '.';
    var dot := at + 2 + k;
    assert s[dot] == '.';
    var local, middle, tail := s[..at], s[at + 1..dot], s[dot + 1..];
    assert Plain(local) by {
      forall j | 0 <= j < |local| ensures !IsJsSpace(local[j]) && local[j] != '@' {
        assert local[j] == s[j] && local[j] in s[..at];
      }
    }
    assert Plain(middle) by {
      forall j | 0 <= j < |middle| ensures !IsJsSpace(middle[j]) && middle[j] != '@' {
        assert middle[j] == domain[j] == s[at + 1 + j];
      }
    }
    assert Plain(tail) by {
      forall j | 0 <= j < |tail| ensures !IsJsSpace(tail[j]) && tail[j] != '@' {
        assert tail[j] == domain[dot - at + j] == s[dot + 1 + j];
      }
    }
    assert Parts(s, at, dot);
  }

  /** The three runs and the two separators cover the whole string. */
  lemma PartsCover(s: string, at: nat, dot: nat, k: nat)
    requires Parts(s, at, dot) && k < |s|
    ensures !IsJsSpace(s[k])
    ensures k != at ==> s[k] != '@'
  {
    if k < at {
      assert s[k] == s[..at][k];
    } else if at < k < dot {
      assert s[k] == s[at + 1..dot][k - (at + 1)];
    } else if dot < k {
      assert s[k] == s[dot + 1..][k - (dot + 1)];
    }
  }

  /** A split string has no white space. */
  lemma PartsNoSpace(s: string, at: nat, dot: nat)
    requires Parts(s, at, dot)
    ensures NoSpace(s)
  {
    forall k | 0 <= k < |s| ensures !IsJsSpace(s[k]) {
      PartsCover(s, at, dot, k);
    }
  }

  /** The `@` of a split string is its first. */
  lemma PartsFirstAt(s: string, at: nat, dot: nat)
    requires Parts(s, at, dot)
    ensures IndexOf(s, '@') == Some(at)
  {
    assert s[at] == '@';
    var found := IndexOf(s, '@');
    PartsCover(s, at, dot, found.value);
  }

  /** What follows the `@` of a split string has no `@` and a `.` strictly inside. */
  lemma PartsDomain(s: string, at: nat, dot: nat)
    requires Parts(s, at, dot)
    ensures var domain := s[at + 1..];
      '@' !in domain && |domain| >= 3 && '.' in domain[1..|domain| - 1]
  {
    var domain := s[at + 1..];
    forall j | 0 <= j < |domain| ensures domain[j] != '@' {
      PartsCover(s, at, dot, at + 1 + j);
    }
    var inner := domain[1..|domain| - 1];
    assert inner[dot - at - 2] == s[dot];
  }

  lemma EmailPatternLooksLikeEmail(s: string)
    requires EmailPattern(s)
    ensures LooksLikeEmail(s)
  {
    var at: nat, dot: nat :| Parts(s, at, dot);
    PartsNoSpace(s, at, dot);
    PartsFirstAt(s, at, dot);
    PartsDomain(s, at, dot);
  }

  /** The one-pass check accepts exactly what the pattern matches. */
  lemma LooksLikeEmailIffPattern(s: string)
    ensures LooksLikeEmail(s) <==> EmailPattern(s)
  {
    if LooksLikeEmail(s) {
      LooksLikeEmailMatches(s);
    }
    if EmailPattern(s) {
      EmailPatternLooksLikeEmail(s);
    }
  }

  // ---------------------------------------------------------------------
  // validateField, validateForm
  // ---------------------------------------------------------------------

  /** An input, textarea or select: its value, `type` and `required`. */
  datatype Field = Field(value: string, kind: string, required: bool)

  const RequiredMessage := "This field is required"
  const EmailMessage := "Please enter a valid email address"
  const PasswordMessage := "Password must be at least 6 characters long"

  /**
   * A field is valid when it is filled if required and, once filled, an
   * email field matches the pattern and a password field has six code
   * units or more; an empty optional field is always valid.
   */
  ghost predicate FieldValid(f: Field) {
    var v := Trim(f.value);
    && (f.required ==> v != [])
    && (f.kind == "email" && v != [] ==> EmailPattern(v))
    && (f.kind == "password" && v != [] ==> Utf16Length(v) >= 6)
  }

  /**
   * `validateField`: the verdict, and the message shown under the field
   * (empty when it is valid), the one of the check that failed.
   */
  method ValidateField(field: Field) returns (isValid: bool, shown: string)
    ensures isValid <==> FieldValid(field)
    ensures isValid <==> shown == []
    ensures !field.required && AllJsSpace(field.value) ==> isValid
    ensures field.required && AllJsSpace(field.value) ==> shown == RequiredMessage
    ensures field.kind == "email" && !AllJsSpace(field.value) && !EmailPattern(Trim(field.value)) ==>
      shown == EmailMessage
    ensures field.kind == "password" && !AllJsSpace(field.value) && Utf16Length(Trim(field.value)) < 6 ==>
      shown == PasswordMessage
  {
    var value := Trim(field.value);
    isValid := true;
    var errorMessage := "";
    if field.required && value == [] {
      isValid := false;
      errorMessage := RequiredMessage;
    }
    if field.kind == "email" && value != [] {
      LooksLikeEmailIffPattern(value);
      if !LooksLikeEmail(value) {
        isValid := false;
        errorMessage := EmailMessage;
      }
    }
    if field.kind == "password" && value != [] {
      if Utf16Length(value) < 6 {
        isValid := false;
        errorMessage := PasswordMessage;
      }
    }
    shown := if isValid then "" else errorMessage;
  }

  /** What one field shows after `validateForm`: nothing new for a field the selector skips. */
  ghost predicate ShownAfterSubmit(f: Field, shown: Option<string>) {
    && (shown.None? <==> !f.required)
    && (shown == Some([]) <==> f.required && FieldValid(f))
  }

  /** The verdict of `validateForm` over the first `n` fields. */
  ghost predicate RequiredValid(fields: seq<Field>, n: nat)
    requires n <= |fields|
  {
    forall k | 0 <= k < n && fields[k].required :: FieldValid(fields[k])
  }

  /** Taking one more field into the verdict. */
  lemma RequiredValidStep(fields: seq<Field>, n: nat)
    requires n < |fields|
    ensures RequiredValid(fields, n + 1) <==>
      RequiredValid(fields, n) && (fields[n].required ==> FieldValid(fields[n]))
  {
  }

  /** What every one of the first `|shown|` fields shows. */
  ghost predicate ShownSoFar(fields: seq<Field>, shown: seq<Option<string>>)
    requires |shown| <= |fields|
  {
    forall k | 0 <= k < |shown| :: ShownAfterSubmit(fields[k], shown[k])
  }

  /** Appending what the next field shows. */
  lemma ShownSnoc(fields: seq<Field>, shown: seq<Option<string>>, next: Option<string>)
    requires |shown| < |fields|
    requires ShownSoFar(fields, shown) && ShownAfterSubmit(fields[|shown|], next)
    ensures ShownSoFar(fields, shown + [next])
  {
    var longer := shown + [next];
    forall k | 0 <= k < |longer|
      ensures ShownAfterSubmit(fields[k], longer[k])
    {
      if k < |shown| {
        assert longer[k] == shown[k];
      }
    }
  }

  /**
   * `validateForm`: every required field is validated, none skipped after
   * a failure, and the form is valid iff every required field is.
   */
  method ValidateForm(fields: seq<Field>) returns (isValid: bool, shown: seq<Option<string>>)
    ensures |shown| == |fields|
    ensures isValid <==> forall k | 0 <= k < |fields| && fields[k].required :: FieldValid(fields[k])
    ensures forall k | 0 <= k < |fields| :: ShownAfterSubmit(fields[k], shown[k])
  {
    isValid := true;
    shown := [];
    var i := 0;
    while i < |fields|
      invariant 0 <= i <= |fields| && |shown| == i
      invariant isValid <==> RequiredValid(fields, i)
      invariant ShownSoFar(fields, shown)
    {
      RequiredValidStep(fields, i);
      var next: Option<string>;
      if fields[i].required {
        var ok, message := ValidateField(fields[i]);
        if !ok {
          isValid := false;
        }
        next := Some(message);
      } else {
        next := None;
      }
      ShownSnoc(fields, shown, next);
      shown := shown + [next];
      i := i + 1;
    }
  }

  // ---------------------------------------------------------------------
  // getNotificationClasses, getNotificationIcon
  // ---------------------------------------------------------------------

  const ClassTable: map<string, string> := map[
    "success" := "bg-green-50 border border-green-200 text-green-800",
    "error" := "bg-red-50 border border-red-200 text-red-800",
    "warning" := "bg-yellow-50 border border-yellow-200 text-yellow-800",
    "info" := "bg-blue-50 border border-blue-200 text-blue-800"]

  const IconTable: map<string, string> := map[
    "success" := "<i class=\"fas fa-check-circle text-green-400\"></i>",
    "error" := "<i class=\"fas fa-exclamation-circle text-red-400\"></i>",
    "warning" := "<i class=\"fas fa-exclamation-triangle text-yellow-400\"></i>",
    "info" := "<i class=\"fas fa-info-circle text-blue-400\"></i>"]

  /** The names every object literal inherits from `Object.prototype`. */
  const InheritedNames: set<string> := {
    "constructor", "hasOwnProperty", "isPrototypeOf", "propertyIsEnumerable", "toLocaleString",
    "toString", "valueOf", "__proto__", "__defineGetter__", "__defineSetter__",
    "__lookupGetter__", "__lookupSetter__"}

  /** What `table[type]` can yield besides a string: an inherited function or object. */
  datatype JsValue = Str(text: string) | Inherited(name: string)

  /**
   * `table[type] || table.info` as JavaScript evaluates it: an own key
   * yields its (non-empty, so truthy) string; an inherited name yields a
   * function or object, truthy too, so the fallback is not taken; only
   * what is undefined falls back to `info`.
   */
  function LookupAsWritten(table: map<string, string>, kind: string): (r: JsValue)
    requires "info" in table
    ensures r.Inherited? <==> kind !in table && kind in InheritedNames
    ensures r.Str? ==> r.text == table["info"] || (kind in table && r.text == table[kind])
  {
    if kind in table && table[kind] != [] then Str(table[kind])
    else if kind !in table && kind in InheritedNames then Inherited(kind)
    else Str(table["info"])
  }

  /** `toString` reaches `Object.prototype.toString` instead of the `info` entry. */
  lemma InheritedNameBypassesFallback()
    ensures LookupAsWritten(ClassTable, "toString") == Inherited("toString")
    ensures LookupAsWritten(IconTable, "toString") == Inherited("toString")
  {
    assert "toString" !in ClassTable && "toString" !in IconTable by {
      assert "toString"[0] != "success"[0] && "toString"[0] != "error"[0];
      assert "toString"[0] != "warning"[0] && "toString"[0] != "info"[0];
    }
  }

  /** The intended lookup: an own entry, and `info` for every other type. */
  function Lookup(table: map<string, string>, kind: string): (r: string)
    requires "info" in table
    ensures r == table["info"] || (kind in table && r == table[kind])
  {
    if kind in table && table[kind] != [] then table[kind] else table["info"]
  }

  /** Every type the table does not list gets the `info` entry. */
  lemma UnknownTypeIsInfo(table: map<string, string>, kind: string)
    requires "info" in table && kind !in table
    ensures Lookup(table, kind) == table["info"]
    ensures kind !in InheritedNames ==> LookupAsWritten(table, kind) == Str(Lookup(table, kind))
  {
  }

  /** The two lookups agree on every name `Object.prototype` does not provide. */
  lemma LookupAgrees(table: map<string, string>, kind: string)
    requires "info" in table
    ensures kind in table || kind !in InheritedNames <==> LookupAsWritten(table, kind) == Str(Lookup(table, kind))
  {
  }

  /** `getNotificationClasses`, with the fallback as intended. */
  function NotificationClasses(kind: string): (r: string)
    ensures kind in ClassTable ==> r == ClassTable[kind]
    ensures kind !in ClassTable ==> r == ClassTable["info"]
  {
    Lookup(ClassTable, kind)
  }

  /** `getNotificationIcon`, with the fallback as intended. */
  function NotificationIcon(kind: string): (r: string)
    ensures kind in IconTable ==> r == IconTable[kind]
    ensures kind !in IconTable ==> r == IconTable["info"]
  {
    Lookup(IconTable, kind)
  }
}
