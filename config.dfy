/** The browser-side parser for pasted configuration text
    (parseAndPopulateConfig in the page the server embeds): one
    "key = value" per line, five recognised keys, each filling one field of
    the connection form. */
module ConfigText {
  import opened Wrappers

  // ---------------------------------------------------------------------
  // String.prototype.split with a one-character separator
  // ---------------------------------------------------------------------

  /** The pieces of `s` between occurrences of `sep`, in order; the empty
      string splits into one empty piece. */
  function Split(s: string, sep: char): (parts: seq<string>)
    ensures |parts| >= 1
  {
    if |s| == 0 then [""]
    else
      var rest := Split(s[1..], sep);
      if s[0] == sep then [""] + rest
      else [[s[0]] + rest[0]] + rest[1..]
  }

  /** There is one more piece than there are separators. */
  lemma {:induction false} SplitCount(s: string, sep: char)
    ensures |Split(s, sep)| == multiset(s)[sep] + 1
  {
    if |s| > 0 {
      SplitCount(s[1..], sep);
      assert s == [s[0]] + s[1..];
      assert multiset(s) == multiset{s[0]} + multiset(s[1..]);
    }
  }

  /** No piece holds a separator. */
  lemma {:induction false} SplitSeparatorFree(s: string, sep: char)
    ensures forall i :: 0 <= i < |Split(s, sep)| ==> sep !in Split(s, sep)[i]
  {
    if |s| > 0 {
      SplitSeparatorFree(s[1..], sep);
      var rest := Split(s[1..], sep);
      var parts := Split(s, sep);
      if s[0] != sep {
        assert forall i :: 1 <= i < |parts| ==> parts[i] == rest[i];
        assert parts[0] == [s[0]] + rest[0];
      }
    }
  }

  /** Joining the pieces gives back the string. */
  lemma {:induction false} SplitJoins(s: string, sep: char)
    ensures Join(Split(s, sep), sep) == s
  {
    if |s| > 0 {
      var rest := Split(s[1..], sep);
      SplitJoins(s[1..], sep);
      assert s == [s[0]] + s[1..];
      JoinHead(rest, sep);
      var parts := Split(s, sep);
      if s[0] == sep {
        assert parts[1..] == rest;
        JoinHead(parts, sep);
      } else {
        assert |rest| > 1 ==> parts[1..] == rest[1..];
        JoinHead(parts, sep);
      }
    }
  }

  /** Array.prototype.join with a one-character separator. */
  function Join(parts: seq<string>, sep: char): string
    requires |parts| >= 1
  {
    if |parts| == 1 then parts[0] else parts[0] + [sep] + Join(parts[1..], sep)
  }

  /** The first piece of a join is followed by the separator or by nothing. */
  lemma JoinHead(parts: seq<string>, sep: char)
    requires |parts| >= 1
    ensures Join(parts, sep)[..|parts[0]|] == parts[0]
    ensures |parts| == 1 ==> Join(parts, sep) == parts[0]
    ensures |parts| > 1 ==> Join(parts, sep) == parts[0] + [sep] + Join(parts[1..], sep)
  {
  }

  /** The characters of a join up to and just past its first piece. */
  lemma JoinAt(parts: seq<string>, sep: char, k: int)
    ensures 1 <= |parts| && 0 <= k < |parts[0]| ==> Join(parts, sep)[k] == parts[0][k]
    ensures 1 < |parts| && k == |parts[0]| ==> Join(parts, sep)[k] == sep
  {
  }

  /** Splitting undoes joining pieces that do not contain the separator. */
  lemma {:induction false} SplitJoin(parts: seq<string>, sep: char)
    requires |parts| >= 1
    requires forall i :: 0 <= i < |parts| ==> sep !in parts[i]
    ensures Split(Join(parts, sep), sep) == parts
  {
    var joined := Join(parts, sep);
    var split := Split(joined, sep);
    SplitSeparatorFree(joined, sep);
    SplitJoins(joined, sep);
    // Both are sequences of separator-free pieces joining to `joined`.
    JoinUnique(split, parts, sep);
  }

  /** Joining separator-free pieces loses nothing. */
  lemma {:induction false} JoinUnique(a: seq<string>, b: seq<string>, sep: char)
    requires |a| >= 1 && |b| >= 1
    requires forall i :: 0 <= i < |a| ==> sep !in a[i]
    requires forall i :: 0 <= i < |b| ==> sep !in b[i]
    requires Join(a, sep) == Join(b, sep)
    ensures a == b
    decreases |a|
  {
    JoinHead(a, sep);
    JoinHead(b, sep);
    var s := Join(a, sep);
    if |a| == 1 && |b| == 1 {
    } else if |a| == 1 {
      // b's head and a separator would fit inside a's only piece.
      assert false;
    } else if |b| == 1 {
      assert false;
    } else if |a[0]| < |b[0]| {
      // The separator after a's head would fall inside b's head.
      JoinAt(a, sep, |a[0]|);
      assert false;
    } else if |b[0]| < |a[0]| {
      JoinAt(a, sep, |b[0]|);
      assert false;
    } else {
      var rest := s[|a[0]| + 1..];
      assert Join(a[1..], sep) == rest;
      assert Join(b[1..], sep) == rest;
      JoinUnique(a[1..], b[1..], sep);
      assert a == [a[0]] + a[1..];
      assert b == [b[0]] + b[1..];
    }
  }

  // ---------------------------------------------------------------------
  // String.prototype.trim
  // ---------------------------------------------------------------------

  /** The characters trim removes: the WhiteSpace and LineTerminator
      productions of ECMAScript (tab, vertical tab, form feed, space,
      no-break space, byte order mark, the space separators of Unicode, line
      feed, carriage return, line and paragraph separators). */
  predicate IsJsWhitespace(c: char) {
    c == '\t' || c == '\U{000B}' || c == '\U{000C}' || c == ' ' ||
    c == '\n' || c == '\r' ||
    c == '\U{00A0}' || c == '\U{1680}' ||
    ('\U{2000}' <= c <= '\U{200A}') ||
    c == '\U{2028}' || c == '\U{2029}' || c == '\U{202F}' || c == '\U{205F}' ||
    c == '\U{3000}' || c == '\U{FEFF}'
  }

  predicate AllWhitespace(s: string) {
    forall i :: 0 <= i < |s| ==> IsJsWhitespace(s[i])
  }

  /** Neither end of `s` is whitespace. */
  predicate Trimmed(s: string) {
    |s| == 0 || (!IsJsWhitespace(s[0]) && !IsJsWhitespace(s[|s| - 1]))
  }

  /** The number of whitespace characters `s` starts with. */
  function LeadingSpace(s: string): (n: nat)
    ensures n <= |s|
    ensures forall i :: 0 <= i < n ==> IsJsWhitespace(s[i])
    ensures n < |s| ==> !IsJsWhitespace(s[n])
  {
    if |s| > 0 && IsJsWhitespace(s[0]) then 1 + LeadingSpace(s[1..]) else 0
  }

  /** The number of whitespace characters `s` ends with. */
  function TrailingSpace(s: string): (n: nat)
    ensures n <= |s|
    ensures forall i :: |s| - n <= i < |s| ==> IsJsWhitespace(s[i])
    ensures n < |s| ==> !IsJsWhitespace(s[|s| - n - 1])
  {
    if |s| > 0 && IsJsWhitespace(s[|s| - 1]) then 1 + TrailingSpace(s[..|s| - 1]) else 0
  }

  /** `s` without whitespace at either end. */
  function Trim(s: string): (r: string)
    ensures |r| <= |s| && Trimmed(r)
  {
    var front := s[LeadingSpace(s)..];
    front[..|front| - TrailingSpace(front)]
  }

  /** What trim keeps is a middle piece of `s`, flanked by whitespace only. */
  lemma TrimIsMiddle(s: string)
    ensures LeadingSpace(s) + |Trim(s)| <= |s|
    ensures forall i :: 0 <= i < |Trim(s)| ==> Trim(s)[i] == s[LeadingSpace(s) + i]
    ensures forall i :: 0 <= i < LeadingSpace(s) ==> IsJsWhitespace(s[i])
    ensures forall i :: LeadingSpace(s) + |Trim(s)| <= i < |s| ==> IsJsWhitespace(s[i])
  {
    var k := LeadingSpace(s);
    var front := s[k..];
    var m := TrailingSpace(front);
    var r := Trim(s);
    assert r == front[..|front| - m];
    forall i | k + |r| <= i < |s|
      ensures IsJsWhitespace(s[i])
    {
      assert s[i] == front[i - k];
    }
  }

  /** Any count of leading whitespace followed by a non-whitespace character
      (or by nothing) is the one trim finds. */
  lemma LeadingSpaceIs(s: string, k: nat)
    requires k <= |s|
    requires forall i :: 0 <= i < k ==> IsJsWhitespace(s[i])
    requires k < |s| ==> !IsJsWhitespace(s[k])
    ensures LeadingSpace(s) == k
  {
  }

  lemma TrailingSpaceIs(s: string, k: nat)
    requires k <= |s|
    requires forall i :: |s| - k <= i < |s| ==> IsJsWhitespace(s[i])
    requires k < |s| ==> !IsJsWhitespace(s[|s| - k - 1])
    ensures TrailingSpace(s) == k
  {
  }

  /** The trimmed text is the only middle: whitespace around a string with
      no whitespace at its ends is exactly what trim removes. */
  lemma TrimExactly(lead: string, middle: string, trail: string)
    requires AllWhitespace(lead) && AllWhitespace(trail) && Trimmed(middle)
    ensures Trim(lead + middle + trail) == middle
  {
    var s := lead + middle + trail;
    if |middle| == 0 {
      // Nothing but whitespace: trim leaves nothing.
      LeadingSpaceIs(s, |s|);
    } else {
      assert s[|lead|] == middle[0];
      LeadingSpaceIs(s, |lead|);
      var front := s[|lead|..];
      assert front == middle + trail;
      assert front[|middle| - 1] == middle[|middle| - 1];
      TrailingSpaceIs(front, |trail|);
      assert front[..|middle|] == middle;
    }
  }

  /** Trimming twice is trimming once. */
  lemma TrimIdempotent(s: string)
    ensures Trim(Trim(s)) == Trim(s)
  {
    TrimExactly("", Trim(s), "");
    assert "" + Trim(s) + "" == Trim(s);
  }

  // ---------------------------------------------------------------------
  // The form and the recognised keys
  // ---------------------------------------------------------------------

  /** The five inputs of the connection form the parser fills. */
  datatype FormField = PublicKey | PrivateKey | ProjectId | InstanceName | AtlasHost

  /** The form's contents. */
  datatype Form = Form(
    publicKey: string,
    privateKey: string,
    projectId: string,
    instanceName: string,
    atlasHost: string)

  /** The key that fills each field. */
  function KeyOf(field: FormField): string {
    match field
    case PublicKey => "public_key"
    case PrivateKey => "private_key"
    case ProjectId => "project_id"
    case InstanceName => "spi_name"
    case AtlasHost => "api_host"
  }

  /** The field a (trimmed) key fills, if it is one of the five keys. */
  function FieldOf(key: string): (r: Option<FormField>)
    ensures r.Some? ==> KeyOf(r.value) == key
  {
    if key == "public_key" then Some(PublicKey)
    else if key == "private_key" then Some(PrivateKey)
    else if key == "project_id" then Some(ProjectId)
    else if key == "spi_name" then Some(InstanceName)
    else if key == "api_host" then Some(AtlasHost)
    else None
  }

  /** Every field has a key and the five keys are distinct. */
  lemma FieldOfKeyOf(field: FormField)
    ensures FieldOf(KeyOf(field)) == Some(field)
  {
    match field
    case PublicKey =>
    case PrivateKey =>
    case ProjectId =>
      assert KeyOf(ProjectId)[1] != "public_key"[1];
    case InstanceName =>
    case AtlasHost =>
  }

  function Get(form: Form, field: FormField): string {
    match field
    case PublicKey => form.publicKey
    case PrivateKey => form.privateKey
    case ProjectId => form.projectId
    case InstanceName => form.instanceName
    case AtlasHost => form.atlasHost
  }

  /** The form with one field replaced. */
  function Set(form: Form, field: FormField, value: string): (r: Form)
    ensures Get(r, field) == value
    ensures forall other :: other != field ==> Get(r, other) == Get(form, other)
  {
    match field
    case PublicKey => form.(publicKey := value)
    case PrivateKey => form.(privateKey := value)
    case ProjectId => form.(projectId := value)
    case InstanceName => form.(instanceName := value)
    case AtlasHost => form.(atlasHost := value)
  }

  // ---------------------------------------------------------------------
  // Lines
  // ---------------------------------------------------------------------

  /** What one line assigns: a line counts only when splitting it on '='
      gives exactly two pieces and the trimmed first piece is a known key;
      the value is the trimmed second piece. */
  function Assignment(line: string): (r: Option<(FormField, string)>)
    ensures r.Some? ==> multiset(line)['='] == 1
  {
    SplitCount(line, '=');
    var parts := Split(line, '=');
    if |parts| != 2 then None
    else
      match FieldOf(Trim(parts[0]))
      case None => None
      case Some(field) => Some((field, Trim(parts[1])))
  }

  /** A line "key = value" with a single '=' and a known key assigns the
      trimmed value to that key's field. */
  lemma AssignmentOfLine(key: string, value: string, field: FormField)
    requires '=' !in key && '=' !in value
    requires Trim(key) == KeyOf(field)
    ensures Assignment(key + "=" + value) == Some((field, Trim(value)))
  {
    SplitJoin([key, value], '=');
    assert Join([key, value], '=') == key + "=" + value;
    FieldOfKeyOf(field);
  }

  /** A line whose trimmed key is not one of the five assigns nothing. */
  lemma UnknownKeyAssignsNothing(line: string)
    requires forall field :: Trim(Split(line, '=')[0]) != KeyOf(field)
    ensures Assignment(line) == None
  {
  }

  /** The form after one line. */
  function ApplyLine(form: Form, line: string): Form {
    match Assignment(line)
    case None => form
    case Some((field, value)) => Set(form, field, value)
  }

  /** One line, step by step: split on '=', insist on two pieces, look up
      the trimmed key. */
  lemma ApplyLineSteps(form: Form, line: string)
    ensures var parts := Split(line, '=');
            ApplyLine(form, line) ==
              if |parts| == 2 && FieldOf(Trim(parts[0])).Some?
              then Set(form, FieldOf(Trim(parts[0])).value, Trim(parts[1]))
              else form
  {
  }

  /** The form after the lines, first to last. */
  function ApplyLines(form: Form, lines: seq<string>): Form {
    if |lines| == 0 then form
    else ApplyLine(ApplyLines(form, lines[..|lines| - 1]), lines[|lines| - 1])
  }

  /** The fold over one more line. */
  lemma ApplyLinesStep(form: Form, lines: seq<string>, i: int)
    requires 0 <= i < |lines|
    ensures ApplyLines(form, lines[..i + 1]) == ApplyLine(ApplyLines(form, lines[..i]), lines[i])
  {
    assert lines[..i + 1][..i] == lines[..i];
  }

  predicate Assigns(line: string, field: FormField) {
    Assignment(line).Some? && Assignment(line).value.0 == field
  }

  /** One line sets the field it assigns and leaves the others alone. */
  lemma ApplyLineGet(form: Form, line: string, field: FormField)
    ensures Get(ApplyLine(form, line), field) ==
              if Assigns(line, field) then Assignment(line).value.1 else Get(form, field)
  {
  }

  /** A field no line assigns keeps its value; in particular lines with an
      unknown key or without exactly one '=' change nothing. */
  lemma {:induction false} Unassigned(form: Form, lines: seq<string>, field: FormField)
    requires forall j :: 0 <= j < |lines| ==> !Assigns(lines[j], field)
    ensures Get(ApplyLines(form, lines), field) == Get(form, field)
  {
    if |lines| > 0 {
      Unassigned(form, lines[..|lines| - 1], field);
      ApplyLineGet(ApplyLines(form, lines[..|lines| - 1]), lines[|lines| - 1], field);
    }
  }

  /** The last line that assigns a field decides its value. */
  lemma {:induction false} LastAssignmentWins(form: Form, lines: seq<string>, i: int, field: FormField)
    requires 0 <= i < |lines| && Assigns(lines[i], field)
    requires forall j :: i < j < |lines| ==> !Assigns(lines[j], field)
    ensures Get(ApplyLines(form, lines), field) == Assignment(lines[i]).value.1
  {
    var init := lines[..|lines| - 1];
    ApplyLineGet(ApplyLines(form, init), lines[|lines| - 1], field);
    if i < |lines| - 1 {
      LastAssignmentWins(form, init, i, field);
    }
  }

  // ---------------------------------------------------------------------
  // The form's inputs, changed in place
  // ---------------------------------------------------------------------

  /** The five input elements of the page, each holding its current text. */
  class ConfigForm {
    var publicKey: string
    var privateKey: string
    var projectId: string
    var instanceName: string
    var atlasHost: string

    constructor (initial: Form)
      ensures Contents() == initial
    {
      publicKey := initial.publicKey;
      privateKey := initial.privateKey;
      projectId := initial.projectId;
      instanceName := initial.instanceName;
      atlasHost := initial.atlasHost;
    }

    function Contents(): Form
      reads this
    {
      Form(publicKey, privateKey, projectId, instanceName, atlasHost)
    }

    /** The switch on a trimmed key: a recognised key sets its input to the
        value, any other key changes nothing. */
    method Populate(key: string, value: string)
      modifies this
      ensures FieldOf(key).Some? ==> Contents() == Set(old(Contents()), FieldOf(key).value, value)
      ensures FieldOf(key).None? ==> Contents() == old(Contents())
    {
      if key == "public_key" {
        publicKey := value;
      } else if key == "private_key" {
        privateKey := value;
      } else if key == "project_id" {
        projectId := value;
      } else if key == "spi_name" {
        instanceName := value;
      } else if key == "api_host" {
        atlasHost := value;
      }
    }

    /** Splits the text into lines and, line by line, sets the input a
        recognised key names to the trimmed value; the result is the fold of
        the lines over the form. */
    method ParseAndPopulateConfig(configText: string)
      modifies this
      ensures Contents() == ApplyLines(old(Contents()), Split(configText, '\n'))
    {
      var lines := Split(configText, '\n');
      var i := 0;
      while i < |lines|
        invariant 0 <= i <= |lines|
        invariant Contents() == ApplyLines(old(Contents()), lines[..i])
      {
        ghost var before := Contents();
        var parts := Split(lines[i], '=');
        if |parts| == 2 {
          Populate(Trim(parts[0]), Trim(parts[1]));
        }
        ApplyLineSteps(before, lines[i]);
        ApplyLinesStep(old(Contents()), lines, i);
        i := i + 1;
      }
      assert lines[..i] == lines;
    }
  }
}
