/**
 * `loadEnv` of the direct v0 test script: the `.env` file's text is split
 * into lines, each line of the form `KEY=value` adds its trimmed key and
 * value to a dictionary, later lines overriding earlier ones. Reading the
 * file is an input: `None` stands for a read that failed.
 */
module EnvLoader {
  import opened Wrappers

  // ---------------------------------------------------------------------------
  // Characters
  // ---------------------------------------------------------------------------

  /** The characters `.` does not match in a regular expression. */
  predicate IsLineTerminator(c: char)
  {
    c == '\n' || c == '\r' || c == '\U{2028}' || c == '\U{2029}'
  }

  /** The characters `String.prototype.trim` removes: white space and line terminators. */
  predicate IsTrimmable(c: char)
  {
    || IsLineTerminator(c)
    || c == '\t' || c == '\U{000B}' || c == '\U{000C}' || c == ' '
    || c == '\U{00A0}' || c == '\U{FEFF}' || c == '\U{1680}'
    || ('\U{2000}' <= c <= '\U{200A}')
    || c == '\U{202F}' || c == '\U{205F}' || c == '\U{3000}'
  }

  // ---------------------------------------------------------------------------
  // Splitting into lines
  // ---------------------------------------------------------------------------

  /** `text.split('\n')`: the pieces between newlines, at least one. */
  function SplitLines(text: string): (lines: seq<string>)
    ensures |lines| >= 1
    ensures forall i :: 0 <= i < |lines| ==> '\n' !in lines[i]
  {
    if text == [] then [""]
    else
      var rest := SplitLines(text[1..]);
      if text[0] == '\n' then [""] + rest
      else [[text[0]] + rest[0]] + rest[1..]
  }

  /** `lines.join('\n')`. */
  function JoinLines(lines: seq<string>): string
    requires |lines| >= 1
  {
    if |lines| == 1 then lines[0] else lines[0] + "\n" + JoinLines(lines[1..])
  }

  /** Joining the pieces with newlines gives the text back. */
  lemma {:induction false} JoinSplitLines(text: string)
    ensures JoinLines(SplitLines(text)) == text
  {
    if text != [] {
      var rest := SplitLines(text[1..]);
      JoinSplitLines(text[1..]);
      if text[0] == '\n' {
        assert ([""] + rest)[1..] == rest;
      } else {
        var lines := [[text[0]] + rest[0]] + rest[1..];
        if |rest| > 1 {
          assert lines[1..] == rest[1..];
          assert JoinLines(rest) == rest[0] + "\n" + JoinLines(rest[1..]);
        }
      }
    }
  }

  /** Splitting newline-free lines joined with newlines gives the lines back. */
  lemma {:induction false} SplitJoinLines(lines: seq<string>)
    requires |lines| >= 1
    requires forall i :: 0 <= i < |lines| ==> '\n' !in lines[i]
    ensures SplitLines(JoinLines(lines)) == lines
    decreases |lines|, |lines[0]|
  {
    var first := lines[0];
    if first == [] {
      if |lines| > 1 {
        SplitJoinLines(lines[1..]);
        assert JoinLines(lines) == "\n" + JoinLines(lines[1..]);
        assert JoinLines(lines)[1..] == JoinLines(lines[1..]);
      }
    } else {
      var shorter := [first[1..]] + lines[1..];
      assert forall i :: 1 <= i < |shorter| ==> shorter[i] == lines[i];
      assert '\n' !in first[1..] by {
        assert forall c :: c in first[1..] ==> c in first;
      }
      SplitJoinLines(shorter);
      assert shorter[1..] == lines[1..];
      assert JoinLines(lines)[1..] == JoinLines(shorter);
      assert [first[0]] + first[1..] == first;
    }
  }

  // ---------------------------------------------------------------------------
  // One line
  // ---------------------------------------------------------------------------

  /** The index of the first occurrence of `c` in `s`. */
  function FirstIndex(s: string, c: char): (r: Option<nat>)
    ensures r.None? <==> c !in s
    ensures r.Some? ==> r.value < |s| && s[r.value] == c && c !in s[..r.value]
  {
    if s == [] then None
    else if s[0] == c then Some(0)
    else
      var rest := FirstIndex(s[1..], c);
      if rest.None? then None
      else
        assert s[..rest.value + 1] == [s[0]] + s[1..][..rest.value];
        Some(rest.value + 1)
  }

  /** The first `c` after a prefix free of `c` is at the prefix's end. */
  lemma {:induction false} FirstIndexAfter(prefix: string, rest: string, c: char)
    requires c !in prefix && rest != [] && rest[0] == c
    ensures FirstIndex(prefix + rest, c) == Some(|prefix|)
  {
    if prefix == [] {
      assert prefix + rest == rest;
    } else {
      FirstIndexAfter(prefix[1..], rest, c);
      assert (prefix + rest)[1..] == prefix[1..] + rest;
    }
  }

  function TrimStart(s: string): string
  {
    if s != [] && IsTrimmable(s[0]) then TrimStart(s[1..]) else s
  }

  function TrimEnd(s: string): string
  {
    if s != [] && IsTrimmable(s[|s| - 1]) then TrimEnd(s[..|s| - 1]) else s
  }

  /** Trimming the start cuts a run of trimmable characters, up to the first other one. */
  lemma {:induction false} TrimStartCuts(s: string)
    ensures var r := TrimStart(s);
      && |r| <= |s| && r == s[|s| - |r|..]
      && (forall i :: 0 <= i < |s| - |r| ==> IsTrimmable(s[i]))
      && (r == [] || !IsTrimmable(r[0]))
  {
    if s != [] && IsTrimmable(s[0]) {
      var r := TrimStart(s[1..]);
      TrimStartCuts(s[1..]);
      assert TrimStart(s) == r;
      assert s[1..][|s| - 1 - |r|..] == s[|s| - |r|..];
      forall i | 1 <= i < |s| - |r|
        ensures IsTrimmable(s[i])
      {
        assert s[i] == s[1..][i - 1];
      }
    }
  }

  /** Trimming the end cuts a run of trimmable characters, back to the last other one. */
  lemma {:induction false} TrimEndCuts(s: string)
    ensures var r := TrimEnd(s);
      && |r| <= |s| && r == s[..|r|]
      && (forall i :: |r| <= i < |s| ==> IsTrimmable(s[i]))
      && (r == [] || !IsTrimmable(r[|r| - 1]))
  {
    if s != [] && IsTrimmable(s[|s| - 1]) {
      TrimEndCuts(s[..|s| - 1]);
    }
  }

  /** `s.trim()`. */
  function Trim(s: string): string
  {
    TrimEnd(TrimStart(s))
  }

  /**
   * What trimming keeps: a contiguous part of `s` that neither starts nor
   * ends with a trimmable character, with only trimmable characters cut
   * away on either side; trimming it again changes nothing.
   */
  lemma TrimKeepsMiddle(s: string)
    ensures var t := Trim(s);
      exists i, j :: 0 <= i <= j <= |s| && t == s[i..j]
        && (forall x :: 0 <= x < i ==> IsTrimmable(s[x]))
        && (forall x :: j <= x < |s| ==> IsTrimmable(s[x]))
    ensures Trim(s) == [] || (!IsTrimmable(Trim(s)[0]) && !IsTrimmable(Trim(s)[|Trim(s)| - 1]))
    ensures Trim(Trim(s)) == Trim(s)
  {
    var u := TrimStart(s);
    var t := TrimEnd(u);
    TrimStartCuts(s);
    TrimEndCuts(u);
    var i := |s| - |u|;
    var j := i + |t|;
    assert t == s[i..j];
    forall x | j <= x < |s|
      ensures IsTrimmable(s[x])
    {
      assert s[x] == u[x - i];
    }
    if t != [] {
      assert t[0] == u[0];
      assert TrimStart(t) == t;
      assert TrimEnd(t) == t;
    }
  }

  /** A string of trimmable characters only trims to the empty string. */
  lemma TrimAllSpace(s: string)
    requires forall i :: 0 <= i < |s| ==> IsTrimmable(s[i])
    ensures Trim(s) == ""
  {
    TrimStartCuts(s);
  }

  /**
   * The line matches `^([^=]+)=(.*)$` with `key` and `value` as its two
   * groups: a non-empty key without '=', then '=', then a value without
   * line terminators.
   */
  predicate Matches(line: string, key: string, value: string)
  {
    && line == key + "=" + value
    && key != []
    && '=' !in key
    && (forall i :: 0 <= i < |value| ==> !IsLineTerminator(value[i]))
  }

  /** Whether `.` would fail to match somewhere in `s`. */
  predicate HasLineTerminator(s: string)
  {
    s != [] && (IsLineTerminator(s[0]) || HasLineTerminator(s[1..]))
  }

  lemma {:induction false} HasLineTerminatorAt(s: string)
    ensures HasLineTerminator(s) <==> exists i :: 0 <= i < |s| && IsLineTerminator(s[i])
  {
    if s != [] {
      HasLineTerminatorAt(s[1..]);
      if exists i :: 0 <= i < |s| && IsLineTerminator(s[i]) {
        var i :| 0 <= i < |s| && IsLineTerminator(s[i]);
        if i > 0 {
          assert s[1..][i - 1] == s[i];
        }
      }
      if exists i :: 0 <= i < |s[1..]| && IsLineTerminator(s[1..][i]) {
        var i :| 0 <= i < |s[1..]| && IsLineTerminator(s[1..][i]);
        assert s[i + 1] == s[1..][i];
      }
    }
  }

  /** The trimmed key and value of a matching line; `None` for a line that does not match. */
  function ParseLine(line: string): Option<(string, string)>
  {
    var eq := FirstIndex(line, '=');
    if eq.None? || eq.value == 0 then None
    else
      var value := line[eq.value + 1..];
      if HasLineTerminator(value) then None
      else Some((Trim(line[..eq.value]), Trim(value)))
  }

  /** A line that matches is parsed into its trimmed groups; the split is at the first '='. */
  lemma ParseLineComplete(line: string, key: string, value: string)
    requires Matches(line, key, value)
    ensures ParseLine(line) == Some((Trim(key), Trim(value)))
  {
    assert line == key + ("=" + value);
    FirstIndexAfter(key, "=" + value, '=');
    assert line[..|key|] == key;
    assert line[|key| + 1..] == value;
    HasLineTerminatorAt(value);
  }

  /** A line that is parsed matches, with the parsed pair as its trimmed groups. */
  lemma ParseLineSound(line: string)
    requires ParseLine(line).Some?
    ensures exists key, value :: Matches(line, key, value) && ParseLine(line) == Some((Trim(key), Trim(value)))
  {
    var eq := FirstIndex(line, '=').value;
    var key := line[..eq];
    var value := line[eq + 1..];
    assert line == key + "=" + value by {
      assert line == line[..eq] + [line[eq]] + line[eq + 1..];
    }
    HasLineTerminatorAt(value);
    assert Matches(line, key, value);
    assert ParseLine(line) == Some((Trim(key), Trim(value)));
  }

  /** Lines without '=', or starting with '=', are skipped. */
  lemma NoKeyNoEntry(line: string)
    requires '=' !in line || (line != [] && line[0] == '=')
    ensures ParseLine(line) == None
  {
  }

  /** A line written with a CRLF ending keeps its '\r' after the '=', and is skipped. */
  lemma CrlfLineSkipped(line: string)
    requires '=' in line && line[|line| - 1] == '\r'
    ensures ParseLine(line) == None
  {
    var eq := FirstIndex(line, '=');
    if eq.value > 0 {
      var value := line[eq.value + 1..];
      assert value[|value| - 1] == '\r';
      HasLineTerminatorAt(value);
    }
  }

  /** Only the first '=' splits: in "KEY=a=b" the value is "a=b". */
  lemma ValueMayHoldEquals(key: string, a: string, b: string)
    requires key != [] && '=' !in key
    requires !HasLineTerminator(a) && !HasLineTerminator(b)
    ensures ParseLine(key + "=" + a + "=" + b) == Some((Trim(key), Trim(a + "=" + b)))
  {
    var value := a + "=" + b;
    HasLineTerminatorAt(a);
    HasLineTerminatorAt(b);
    forall i | 0 <= i < |value|
      ensures !IsLineTerminator(value[i])
    {
      if i < |a| {
        assert value[i] == a[i];
      } else if i > |a| {
        assert value[i] == b[i - |a| - 1];
      }
    }
    assert key + "=" + a + "=" + b == key + "=" + value;
    ParseLineComplete(key + "=" + value, key, value);
  }

  /** A key of spaces only becomes the empty key. */
  lemma BlankKeyBecomesEmpty(spaces: string, value: string)
    requires spaces != [] && forall i :: 0 <= i < |spaces| ==> spaces[i] == ' '
    requires forall i :: 0 <= i < |value| ==> !IsLineTerminator(value[i])
    ensures ParseLine(spaces + "=" + value) == Some(("", Trim(value)))
  {
    ParseLineComplete(spaces + "=" + value, spaces, value);
    TrimAllSpace(spaces);
  }

  // ---------------------------------------------------------------------------
  // The dictionary
  // ---------------------------------------------------------------------------

  /**
   * Assigning to this key on a plain object sets its prototype instead of
   * adding an entry, and a string is not a prototype: nothing is stored.
   */
  const ProtoKey := "__proto__"

  /** The key a line stores under, if it stores anything. */
  function LineKey(line: string): Option<string>
  {
    var parsed := ParseLine(line);
    if parsed.Some? && parsed.value.0 != ProtoKey then Some(parsed.value.0) else None
  }

  /** The dictionary after the given lines, in order. */
  function EnvOf(lines: seq<string>): map<string, string>
  {
    if lines == [] then map[]
    else
      var env := EnvOf(lines[..|lines| - 1]);
      var last := lines[|lines| - 1];
      if LineKey(last).Some? then env[LineKey(last).value := ParseLine(last).value.1] else env
  }

  /** A key is stored exactly when some line stores under it. */
  lemma {:induction false} EnvKeys(lines: seq<string>, key: string)
    ensures key in EnvOf(lines) <==> exists i :: 0 <= i < |lines| && LineKey(lines[i]) == Some(key)
  {
    if lines != [] {
      var init := lines[..|lines| - 1];
      EnvKeys(init, key);
      if key in EnvOf(lines) && LineKey(lines[|lines| - 1]) != Some(key) {
        var i :| 0 <= i < |init| && LineKey(init[i]) == Some(key);
        assert lines[i] == init[i];
      }
      if exists i :: 0 <= i < |lines| && LineKey(lines[i]) == Some(key) {
        var i :| 0 <= i < |lines| && LineKey(lines[i]) == Some(key);
        if i < |lines| - 1 {
          assert init[i] == lines[i];
        }
      }
    }
  }

  /** Line `i` stores under `key`, and no later line does. */
  predicate LastStoreAt(lines: seq<string>, i: nat, key: string)
  {
    && i < |lines| && LineKey(lines[i]) == Some(key)
    && forall j :: i < j < |lines| ==> LineKey(lines[j]) != Some(key)
  }

  /** The stored value comes from the last line that stores under the key. */
  lemma {:induction false} LastLineWins(lines: seq<string>, key: string)
    requires key in EnvOf(lines)
    ensures exists i: nat :: LastStoreAt(lines, i, key) && EnvOf(lines)[key] == ParseLine(lines[i]).value.1
  {
    var n := |lines| - 1;
    var init := lines[..n];
    if LineKey(lines[n]) == Some(key) {
      assert LastStoreAt(lines, n, key);
      assert EnvOf(lines)[key] == ParseLine(lines[n]).value.1;
    } else {
      assert key in EnvOf(init) && EnvOf(lines)[key] == EnvOf(init)[key];
      LastLineWins(init, key);
      var i: nat :| LastStoreAt(init, i, key) && EnvOf(init)[key] == ParseLine(init[i]).value.1;
      LastStoreExtends(lines, i, key);
      assert lines[i] == init[i];
    }
  }

  /** A last store before the final line stays the last when the final line stores elsewhere. */
  lemma LastStoreExtends(lines: seq<string>, i: nat, key: string)
    requires lines != [] && LastStoreAt(lines[..|lines| - 1], i, key)
    requires LineKey(lines[|lines| - 1]) != Some(key)
    ensures LastStoreAt(lines, i, key)
  {
  }

  /** loadEnv: the dictionary built from the file's lines; an unreadable file gives the empty one. */
  method LoadEnv(content: Option<string>) returns (env: map<string, string>)
    ensures content.None? ==> env == map[]
    ensures content.Some? ==> env == EnvOf(SplitLines(content.value))
  {
    env := map[];
    if content.None? {
      return;
    }
    var lines := SplitLines(content.value);
    var i := 0;
    while i < |lines|
      invariant 0 <= i <= |lines|
      invariant env == EnvOf(lines[..i])
    {
      assert lines[..i + 1][..i] == lines[..i];
      var parsed := ParseLine(lines[i]);
      if parsed.Some? {
        var key := parsed.value.0;
        var value := parsed.value.1;
        if key != ProtoKey {
          env := env[key := value];
        }
      }
      i := i + 1;
    }
    assert lines[..i] == lines;
  }
}
