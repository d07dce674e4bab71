/**
 * The `.env` token rewriter (`updateEnvTokens` in server.js): the file is a
 * sequence of `KEY=value` lines; the three credential keys are rewritten in
 * place wherever they occur, missing ones are appended in the fixed order
 * access token, refresh token, expiry, and every other line passes through.
 */
module EnvFile {
  import opened Wrappers
  import opened Decimal

  // ---------------------------------------------------------------------
  // Lines: `content.split('\n')` and `lines.join('\n')`
  // ---------------------------------------------------------------------

  predicate NoNewline(s: string) { '\n' !in s }

  predicate NoNewlines(lines: seq<string>) { forall i :: 0 <= i < |lines| ==> NoNewline(lines[i]) }

  /** `s.split('\n')`: always at least one piece, and no piece holds a newline. */
  function Split(s: string): (lines: seq<string>)
    ensures |lines| > 0 && NoNewlines(lines)
  {
    if s == [] then [""]
    else
      var rest := Split(s[1..]);
      if s[0] == '\n' then [""] + rest else [[s[0]] + rest[0]] + rest[1..]
  }

  /** `lines.join('\n')`. */
  function Join(lines: seq<string>): string
  {
    if |lines| == 0 then ""
    else if |lines| == 1 then lines[0]
    else lines[0] + "\n" + Join(lines[1..])
  }

  lemma {:induction false} SplitAfterLine(line: string, s: string)
    requires NoNewline(line)
    ensures Split(line + s) == [line + Split(s)[0]] + Split(s)[1..]
  {
    if line == [] {
      assert line + s == s;
      assert line + Split(s)[0] == Split(s)[0];
      assert [Split(s)[0]] + Split(s)[1..] == Split(s);
    } else {
      var t := Split(s);
      assert line + s != [] && (line + s)[0] == line[0] != '\n';
      assert (line + s)[1..] == line[1..] + s;
      SplitAfterLine(line[1..], s);
      var rest := Split(line[1..] + s);
      assert rest == [line[1..] + t[0]] + t[1..];
      assert Split(line + s) == [[line[0]] + rest[0]] + rest[1..];
      assert [line[0]] + (line[1..] + t[0]) == line + t[0];
    }
  }

  /** Splitting undoes joining when no line holds a newline. */
  lemma {:induction false} SplitJoin(lines: seq<string>)
    requires |lines| > 0 && NoNewlines(lines)
    ensures Split(Join(lines)) == lines
  {
    if |lines| == 1 {
      SplitAfterLine(lines[0], "");
      assert lines[0] + "" == lines[0];
    } else {
      var tail := Join(lines[1..]);
      SplitJoin(lines[1..]);
      assert lines[0] + "\n" + tail == lines[0] + ("\n" + tail);
      SplitAfterLine(lines[0], "\n" + tail);
      assert ("\n" + tail)[1..] == tail;
      assert ("\n" + tail)[0] == '\n';
      assert Split("\n" + tail) == [""] + lines[1..];
      assert lines[0] + "" == lines[0];
      assert [lines[0]] + lines[1..] == lines;
    }
  }

  /** Joining undoes splitting. */
  lemma {:induction false} JoinSplit(s: string)
    ensures Join(Split(s)) == s
  {
    if s != [] {
      var rest := Split(s[1..]);
      JoinSplit(s[1..]);
      if s[0] != '\n' {
        if |rest| == 1 {
          assert s == [s[0]] + rest[0];
        } else {
          assert rest == [rest[0]] + rest[1..];
          assert Join(rest) == rest[0] + "\n" + Join(rest[1..]);
          assert s == [s[0]] + s[1..];
        }
      }
    }
  }

  // ---------------------------------------------------------------------
  // The three credential keys
  // ---------------------------------------------------------------------

  datatype TokenKey = AccessToken | RefreshToken | ExpiresAt

  /** The order of `tokenMap`'s entries, which is the order of appending. */
  const KeyOrder: seq<TokenKey> := [AccessToken, RefreshToken, ExpiresAt]

  function Rank(k: TokenKey): nat
  {
    match k
    case AccessToken => 0
    case RefreshToken => 1
    case ExpiresAt => 2
  }

  function KeyName(k: TokenKey): string
  {
    match k
    case AccessToken => "WHOOP_ACCESS_TOKEN"
    case RefreshToken => "WHOOP_REFRESH_TOKEN"
    case ExpiresAt => "WHOOP_TOKEN_EXPIRES_AT"
  }

  /** The credential triple (access token, refresh token, expiry in unix seconds). */
  datatype Credential = Credential(accessToken: string, refreshToken: string, expiresAt: int)

  /** The value written for key `k`: `String(newExpiresAt)` for the expiry. */
  function ValueOf(c: Credential, k: TokenKey): string
  {
    match k
    case AccessToken => c.accessToken
    case RefreshToken => c.refreshToken
    case ExpiresAt => IntToString(c.expiresAt)
  }

  /** The line `KEY=value` for key `k`. */
  function Entry(c: Credential, k: TokenKey): string
  {
    KeyName(k) + "=" + ValueOf(c, k)
  }

  /** `line.startsWith(`${key}=`)`. */
  predicate HasKey(line: string, k: TokenKey)
  {
    KeyName(k) + "=" <= line
  }

  /** The three `KEY=` prefixes differ at position 6, so a line starts with at most one. */
  lemma AtMostOneKey(line: string, k1: TokenKey, k2: TokenKey)
    requires HasKey(line, k1) && HasKey(line, k2)
    ensures k1 == k2
  {
    assert line[6] == (KeyName(k1) + "=")[6] == (KeyName(k2) + "=")[6];
  }

  lemma EntryHasOnlyItsKey(c: Credential, k: TokenKey, k': TokenKey)
    ensures HasKey(Entry(c, k), k)
    ensures HasKey(Entry(c, k), k') ==> k' == k
  {
    assert KeyName(k) + "=" <= Entry(c, k);
    if HasKey(Entry(c, k), k') { AtMostOneKey(Entry(c, k), k, k'); }
  }

  lemma EntryValue(c: Credential, k: TokenKey)
    ensures Entry(c, k)[|KeyName(k)| + 1..] == ValueOf(c, k)
  {
    assert Entry(c, k) == (KeyName(k) + "=") + ValueOf(c, k);
  }

  /** The key a line starts with, if any. */
  function MatchKey(line: string): Option<TokenKey>
  {
    if HasKey(line, AccessToken) then Some(AccessToken)
    else if HasKey(line, RefreshToken) then Some(RefreshToken)
    else if HasKey(line, ExpiresAt) then Some(ExpiresAt)
    else None
  }

  /** `MatchKey` finds the key a line starts with, and finds none only when there is none. */
  lemma MatchKeySpec(line: string)
    ensures MatchKey(line).Some? ==> HasKey(line, MatchKey(line).value)
    ensures MatchKey(line).None? <==> forall k :: !HasKey(line, k)
  {
  }

  /** The callback of `lines.map`: a key line becomes `KEY=newValue`, any other line is kept. */
  function RewriteLine(line: string, c: Credential): string
  {
    match MatchKey(line)
    case Some(k) => Entry(c, k)
    case None => line
  }

  /** Some line starts with key `k` (the key ends up in `seen`). */
  predicate Occurs(lines: seq<string>, k: TokenKey)
  {
    exists i :: 0 <= i < |lines| && HasKey(lines[i], k)
  }

  lemma OccursSnoc(lines: seq<string>, i: nat, k: TokenKey)
    requires i < |lines|
    ensures Occurs(lines[..i + 1], k) <==> Occurs(lines[..i], k) || HasKey(lines[i], k)
  {
    assert lines[..i + 1] == lines[..i] + [lines[i]];
    if Occurs(lines[..i + 1], k) {
      var j :| 0 <= j <= i && HasKey(lines[..i + 1][j], k);
      if j < i { assert lines[..i][j] == lines[j]; }
    }
    if Occurs(lines[..i], k) {
      var j :| 0 <= j < i && HasKey(lines[..i][j], k);
      assert lines[..i + 1][j] == lines[j];
    }
    if HasKey(lines[i], k) {
      assert lines[..i + 1][i] == lines[i];
    }
  }

  /** The key of a line as a set: empty for a line without one. */
  function KeySet(m: Option<TokenKey>): set<TokenKey>
  {
    if m.Some? then {m.value} else {}
  }

  /** The keys that the lines start with: the `seen` set after a pass over them. */
  function KeysIn(lines: seq<string>): set<TokenKey>
  {
    if lines == [] then {} else KeysIn(lines[..|lines| - 1]) + KeySet(MatchKey(lines[|lines| - 1]))
  }

  lemma KeySetOfLine(line: string, k: TokenKey)
    ensures k in KeySet(MatchKey(line)) <==> HasKey(line, k)
  {
    MatchKeySpec(line);
    if HasKey(line, k) { AtMostOneKey(line, k, MatchKey(line).value); }
  }

  lemma {:induction false} KeysInOccurs(lines: seq<string>, k: TokenKey)
    ensures k in KeysIn(lines) <==> Occurs(lines, k)
  {
    if lines != [] {
      var n := |lines| - 1;
      assert KeysIn(lines) == KeysIn(lines[..n]) + KeySet(MatchKey(lines[n]));
      KeysInOccurs(lines[..n], k);
      KeySetOfLine(lines[n], k);
      OccursSnoc(lines, n, k);
      assert lines[..n + 1] == lines;
    }
  }

  /** The keys whose flag is false, in `KeyOrder`. */
  function Absent(access: bool, refresh: bool, expires: bool): (m: seq<TokenKey>)
    ensures forall k :: k in m <==> (k == AccessToken && !access) || (k == RefreshToken && !refresh) || (k == ExpiresAt && !expires)
    ensures forall i, j :: 0 <= i < j < |m| ==> Rank(m[i]) < Rank(m[j])
  {
    (if access then [] else [AccessToken])
    + (if refresh then [] else [RefreshToken])
    + (if expires then [] else [ExpiresAt])
  }

  /** The keys that no line starts with, in `KeyOrder`. */
  function MissingKeys(lines: seq<string>): (m: seq<TokenKey>)
    ensures forall k :: k in m <==> !Occurs(lines, k)
    ensures forall i, j :: 0 <= i < j < |m| ==> Rank(m[i]) < Rank(m[j])
  {
    var seen := KeysIn(lines);
    KeysInOccurs(lines, AccessToken);
    KeysInOccurs(lines, RefreshToken);
    KeysInOccurs(lines, ExpiresAt);
    Absent(AccessToken in seen, RefreshToken in seen, ExpiresAt in seen)
  }

  /** `lines.map(rewrite)`: each line passed through the callback, in order. */
  function RewriteAll(lines: seq<string>, c: Credential): (out: seq<string>)
    ensures |out| == |lines|
  {
    if lines == [] then [] else RewriteAll(lines[..|lines| - 1], c) + [RewriteLine(lines[|lines| - 1], c)]
  }

  /** The keys among the first `n` of `KeyOrder` that are not in `seen`, in order. */
  function Unseen(n: nat, seen: set<TokenKey>): seq<TokenKey>
    requires n <= |KeyOrder|
  {
    if n == 0 then []
    else Unseen(n - 1, seen) + (if KeyOrder[n - 1] in seen then [] else [KeyOrder[n - 1]])
  }

  /** The lines the append loop has pushed after its first `n` rounds. */
  function Appended(c: Credential, seen: set<TokenKey>, n: nat): seq<string>
    requires n <= |KeyOrder|
  {
    if n == 0 then []
    else Appended(c, seen, n - 1) + (if KeyOrder[n - 1] in seen then [] else [Entry(c, KeyOrder[n - 1])])
  }

  /** The lines `updateEnvTokens` produces from the lines of the old file. */
  function UpdatedLines(lines: seq<string>, c: Credential): seq<string>
  {
    RewriteAll(lines, c) + Appended(c, KeysIn(lines), |KeyOrder|)
  }

  /** `updateEnvTokens(content, newAccess, newRefresh, newExpiresAt)` as a function of the old content. */
  function UpdateEnvContent(content: string, c: Credential): string
  {
    Join(UpdatedLines(Split(content), c))
  }

  lemma {:induction false} RewriteAllAt(lines: seq<string>, c: Credential, j: nat)
    requires j < |lines|
    ensures RewriteAll(lines, c)[j] == RewriteLine(lines[j], c)
  {
    var init := lines[..|lines| - 1];
    var last := RewriteLine(lines[|lines| - 1], c);
    assert RewriteAll(lines, c) == RewriteAll(init, c) + [last];
    if j < |init| {
      RewriteAllAt(init, c, j);
      assert lines[j] == init[j];
    }
  }

  /** The map pass rewrites each line on its own, in place. */
  lemma RewriteAllPointwise(lines: seq<string>, c: Credential)
    ensures forall j :: 0 <= j < |lines| ==> RewriteAll(lines, c)[j] == RewriteLine(lines[j], c)
  {
    forall j | 0 <= j < |lines| ensures RewriteAll(lines, c)[j] == RewriteLine(lines[j], c) {
      RewriteAllAt(lines, c, j);
    }
  }

  lemma {:induction false} AppendedPointwise(c: Credential, seen: set<TokenKey>, n: nat)
    requires n <= |KeyOrder|
    ensures |Appended(c, seen, n)| == |Unseen(n, seen)|
    ensures forall j :: 0 <= j < |Unseen(n, seen)| ==> Appended(c, seen, n)[j] == Entry(c, Unseen(n, seen)[j])
  {
    if n > 0 {
      AppendedPointwise(c, seen, n - 1);
    }
  }

  /** The append loop's keys are exactly the missing keys, in order. */
  lemma UnseenIsMissing(lines: seq<string>)
    ensures Unseen(|KeyOrder|, KeysIn(lines)) == MissingKeys(lines)
  {
    var seen := KeysIn(lines);
    var a := if AccessToken in seen then [] else [AccessToken];
    var b := if RefreshToken in seen then [] else [RefreshToken];
    var e := if ExpiresAt in seen then [] else [ExpiresAt];
    assert Unseen(1, seen) == a;
    assert Unseen(2, seen) == a + b;
    assert Unseen(3, seen) == a + b + e;
  }

  /**
   * The shape of the output: the input lines rewritten one by one, then an
   * entry for each missing key.
   */
  lemma UpdatedLinesParts(lines: seq<string>, c: Credential)
    ensures |UpdatedLines(lines, c)| == |lines| + |MissingKeys(lines)|
    ensures forall i :: 0 <= i < |lines| ==> UpdatedLines(lines, c)[i] == RewriteLine(lines[i], c)
    ensures forall j :: 0 <= j < |MissingKeys(lines)| ==>
      UpdatedLines(lines, c)[|lines| + j] == Entry(c, MissingKeys(lines)[j])
  {
    var r := UpdatedLines(lines, c);
    var m := MissingKeys(lines);
    var appended := Appended(c, KeysIn(lines), |KeyOrder|);
    RewriteAllPointwise(lines, c);
    AppendedPointwise(c, KeysIn(lines), |KeyOrder|);
    UnseenIsMissing(lines);
    assert r == RewriteAll(lines, c) + appended;
    forall i | 0 <= i < |lines| ensures r[i] == RewriteLine(lines[i], c) {
      assert r[i] == RewriteAll(lines, c)[i];
    }
    forall j | 0 <= j < |m| ensures r[|lines| + j] == Entry(c, m[j]) {
      assert r[|lines| + j] == appended[j];
    }
  }

  /** Any sequence of lines with that shape is the output. */
  lemma UpdatedLinesPointwise(lines: seq<string>, c: Credential, out: seq<string>)
    requires |out| == |lines| + |MissingKeys(lines)|
    requires forall j :: 0 <= j < |lines| ==> out[j] == RewriteLine(lines[j], c)
    requires forall j :: 0 <= j < |MissingKeys(lines)| ==> out[|lines| + j] == Entry(c, MissingKeys(lines)[j])
    ensures out == UpdatedLines(lines, c)
  {
    var r := UpdatedLines(lines, c);
    UpdatedLinesParts(lines, c);
    forall j | 0 <= j < |out| ensures out[j] == r[j] {
      if j >= |lines| {
        var t := j - |lines|;
        assert out[|lines| + t] == Entry(c, MissingKeys(lines)[t]) == r[|lines| + t];
      }
    }
  }

  // ---------------------------------------------------------------------
  // updateEnvTokens, step by step
  // ---------------------------------------------------------------------

  /**
   * The callback of `lines.map`: tries the keys in `tokenMap` order and
   * rewrites the line on the first prefix that matches.
   */
  method RewriteOneLine(line: string, c: Credential) returns (out: string, key: Option<TokenKey>)
    ensures key == MatchKey(line)
    ensures out == RewriteLine(line, c)
  {
    out, key := line, None;
    var j := 0;
    while j < |KeyOrder|
      invariant 0 <= j <= |KeyOrder|
      invariant forall j' :: 0 <= j' < j ==> !HasKey(line, KeyOrder[j'])
    {
      var k := KeyOrder[j];
      if KeyName(k) + "=" <= line {
        AtMostOneKey(line, k, MatchKey(line).value);
        out, key := Entry(c, k), Some(k);
        return;
      }
      j := j + 1;
    }
    assert !HasKey(line, KeyOrder[0]) && !HasKey(line, KeyOrder[1]) && !HasKey(line, KeyOrder[2]);
  }

  /** The `lines.map` pass: every line rewritten, and the keys seen on the way. */
  method RewriteLines(lines: seq<string>, c: Credential) returns (updatedLines: seq<string>, seen: set<TokenKey>)
    ensures updatedLines == RewriteAll(lines, c)
    ensures seen == KeysIn(lines)
  {
    seen, updatedLines := {}, [];
    var i := 0;
    while i < |lines|
      invariant 0 <= i <= |lines|
      invariant updatedLines == RewriteAll(lines[..i], c)
      invariant seen == KeysIn(lines[..i])
    {
      var out, key := RewriteOneLine(lines[i], c);
      if key.Some? {
        seen := seen + {key.value};
      }
      assert lines[..i + 1][..i] == lines[..i];
      updatedLines := updatedLines + [out];
      i := i + 1;
    }
    assert lines[..i] == lines;
  }

  /** The append pass: an entry for each key of `KeyOrder` not in `seen`, in order. */
  method AppendUnseen(prefix: seq<string>, seen: set<TokenKey>, c: Credential) returns (updatedLines: seq<string>)
    ensures updatedLines == prefix + Appended(c, seen, |KeyOrder|)
  {
    var appended := [];
    var n := 0;
    while n < |KeyOrder|
      invariant 0 <= n <= |KeyOrder|
      invariant appended == Appended(c, seen, n)
    {
      var key := KeyOrder[n];
      if key !in seen {
        appended := appended + [Entry(c, key)];
      }
      n := n + 1;
    }
    updatedLines := prefix + appended;
  }

  /**
   * `updateEnvTokens`: rewrites every line that starts with a credential
   * key, collecting the keys seen, then appends the unseen keys in order.
   */
  method UpdateEnvTokens(content: string, newAccess: string, newRefresh: string, newExpiresAt: int)
    returns (updated: string)
    ensures updated == UpdateEnvContent(content, Credential(newAccess, newRefresh, newExpiresAt))
  {
    var c := Credential(newAccess, newRefresh, newExpiresAt);
    var lines := Split(content);
    var rewritten, seen := RewriteLines(lines, c);
    // push an entry for each key not seen
    var updatedLines := AppendUnseen(rewritten, seen, c);
    updated := Join(updatedLines);
  }

  // ---------------------------------------------------------------------
  // What updateEnvTokens guarantees
  // ---------------------------------------------------------------------

  /**
   * The first |lines| output lines correspond to the input lines index for
   * index: a line without a credential key is unchanged, and every line with
   * one (each occurrence, not only the first) becomes exactly `KEY=newValue`.
   */
  lemma UpdatedLinesKeepPositions(lines: seq<string>, c: Credential)
    ensures |UpdatedLines(lines, c)| == |lines| + |MissingKeys(lines)|
    ensures forall i :: 0 <= i < |lines| && (forall k :: !HasKey(lines[i], k)) ==>
      UpdatedLines(lines, c)[i] == lines[i]
    ensures forall i, k :: 0 <= i < |lines| && HasKey(lines[i], k) ==>
      UpdatedLines(lines, c)[i] == Entry(c, k)
  {
    UpdatedLinesParts(lines, c);
    forall i, k | 0 <= i < |lines| && HasKey(lines[i], k)
      ensures UpdatedLines(lines, c)[i] == Entry(c, k)
    {
      AtMostOneKey(lines[i], k, MatchKey(lines[i]).value);
    }
  }

  /**
   * After the input lines come exactly the keys no input line starts with,
   * in the order access token, refresh token, expiry, each as `KEY=newValue`.
   */
  lemma UpdatedLinesAppendMissing(lines: seq<string>, c: Credential)
    ensures var r := UpdatedLines(lines, c); var m := MissingKeys(lines);
      |r| == |lines| + |m|
      && (forall j :: 0 <= j < |m| ==> r[|lines| + j] == Entry(c, m[j]))
      && (forall k :: k in m <==> forall i :: 0 <= i < |lines| ==> !HasKey(lines[i], k))
      && (forall i, j :: 0 <= i < j < |m| ==> Rank(m[i]) < Rank(m[j]))
  {
    UpdatedLinesParts(lines, c);
  }

  /** Every key has a line in the output: its rewritten line or its appended entry. */
  lemma UpdatedLinesHaveEveryKey(lines: seq<string>, c: Credential, k: TokenKey)
    ensures Occurs(UpdatedLines(lines, c), k)
  {
    var r := UpdatedLines(lines, c);
    UpdatedLinesParts(lines, c);
    EntryHasOnlyItsKey(c, k, k);
    if Occurs(lines, k) {
      var i :| 0 <= i < |lines| && HasKey(lines[i], k);
      MatchKeySpec(lines[i]);
      AtMostOneKey(lines[i], k, MatchKey(lines[i]).value);
      assert r[i] == Entry(c, k);
      assert HasKey(r[i], k);
    } else {
      var m := MissingKeys(lines);
      var j :| 0 <= j < |m| && m[j] == k;
      assert r[|lines| + j] == Entry(c, k);
      assert HasKey(r[|lines| + j], k);
    }
  }

  /** An output line that starts with a key is that key's new entry. */
  lemma UpdatedLineOfKey(lines: seq<string>, c: Credential, i: nat, k: TokenKey)
    requires i < |UpdatedLines(lines, c)| && HasKey(UpdatedLines(lines, c)[i], k)
    ensures UpdatedLines(lines, c)[i] == Entry(c, k)
  {
    UpdatedLinesParts(lines, c);
    if i < |lines| {
      match MatchKey(lines[i])
      case Some(k') =>
        EntryHasOnlyItsKey(c, k', k);
      case None =>
    } else {
      EntryHasOnlyItsKey(c, MissingKeys(lines)[i - |lines|], k);
    }
  }

  /**
   * Every key is in the output with its new value, and no output line
   * carries an old value of a key.
   */
  lemma UpdatedLinesHoldNewValues(lines: seq<string>, c: Credential)
    ensures forall k :: Occurs(UpdatedLines(lines, c), k)
    ensures forall i, k :: 0 <= i < |UpdatedLines(lines, c)| && HasKey(UpdatedLines(lines, c)[i], k) ==>
      UpdatedLines(lines, c)[i] == Entry(c, k)
  {
    forall k ensures Occurs(UpdatedLines(lines, c), k) {
      UpdatedLinesHaveEveryKey(lines, c, k);
    }
    forall i, k | 0 <= i < |UpdatedLines(lines, c)| && HasKey(UpdatedLines(lines, c)[i], k)
      ensures UpdatedLines(lines, c)[i] == Entry(c, k)
    {
      UpdatedLineOfKey(lines, c, i, k);
    }
  }

  /** The rewritten file lacks no key. */
  lemma UpdatedLinesMissNothing(lines: seq<string>, c: Credential)
    ensures MissingKeys(UpdatedLines(lines, c)) == []
  {
    var r := UpdatedLines(lines, c);
    UpdatedLinesHaveEveryKey(lines, c, AccessToken);
    UpdatedLinesHaveEveryKey(lines, c, RefreshToken);
    UpdatedLinesHaveEveryKey(lines, c, ExpiresAt);
    KeysInOccurs(r, AccessToken);
    KeysInOccurs(r, RefreshToken);
    KeysInOccurs(r, ExpiresAt);
    assert MissingKeys(r) == Absent(true, true, true);
  }

  /** Each line of the rewritten file is left as it is by a second rewrite. */
  lemma UpdatedLineFixed(lines: seq<string>, c: Credential, i: nat)
    requires i < |UpdatedLines(lines, c)|
    ensures RewriteLine(UpdatedLines(lines, c)[i], c) == UpdatedLines(lines, c)[i]
  {
    var line := UpdatedLines(lines, c)[i];
    MatchKeySpec(line);
    if MatchKey(line).Some? {
      UpdatedLineOfKey(lines, c, i, MatchKey(line).value);
    }
  }

  /** Rewriting an already rewritten file with the same values changes nothing. */
  lemma UpdatedLinesIdempotent(lines: seq<string>, c: Credential)
    ensures UpdatedLines(UpdatedLines(lines, c), c) == UpdatedLines(lines, c)
  {
    var r := UpdatedLines(lines, c);
    UpdatedLinesMissNothing(lines, c);
    forall i | 0 <= i < |r| ensures r[i] == RewriteLine(r[i], c) {
      UpdatedLineFixed(lines, c, i);
    }
    UpdatedLinesPointwise(r, c, r);
  }

  /** A `KEY=` prefix holds no newline. */
  lemma KeyPrefixNoNewline(k: TokenKey)
    ensures NoNewline(KeyName(k) + "=")
  {
    match k
    case AccessToken =>
    case RefreshToken =>
    case ExpiresAt =>
  }

  lemma EntryNoNewline(c: Credential, k: TokenKey)
    requires NoNewline(c.accessToken) && NoNewline(c.refreshToken)
    ensures NoNewline(Entry(c, k))
  {
    KeyPrefixNoNewline(k);
    assert Entry(c, k) == (KeyName(k) + "=") + ValueOf(c, k);
  }

  lemma UpdatedLinesNoNewlines(lines: seq<string>, c: Credential)
    requires NoNewlines(lines) && NoNewline(c.accessToken) && NoNewline(c.refreshToken)
    ensures NoNewlines(UpdatedLines(lines, c))
  {
    var r := UpdatedLines(lines, c);
    var m := MissingKeys(lines);
    UpdatedLinesParts(lines, c);
    forall i | 0 <= i < |r| ensures NoNewline(r[i]) {
      if i < |lines| {
        if MatchKey(lines[i]).Some? {
          EntryNoNewline(c, MatchKey(lines[i]).value);
        }
      } else {
        EntryNoNewline(c, m[i - |lines|]);
      }
    }
  }

  /**
   * The same at the level of file content: `updateEnvTokens` applied twice
   * with the same values equals applying it once, for values without a newline.
   */
  lemma UpdateEnvContentIdempotent(content: string, c: Credential)
    requires NoNewline(c.accessToken) && NoNewline(c.refreshToken)
    ensures UpdateEnvContent(UpdateEnvContent(content, c), c) == UpdateEnvContent(content, c)
  {
    var r := UpdatedLines(Split(content), c);
    UpdatedLinesNoNewlines(Split(content), c);
    SplitJoin(r);
    UpdatedLinesIdempotent(Split(content), c);
  }

  /** Every key has a line, and each line that starts with `KEY=` has the value of `c` after the `=`. */
  ghost predicate HoldsValues(lines: seq<string>, c: Credential)
  {
    && (forall k :: Occurs(lines, k))
    && (forall i, k :: 0 <= i < |lines| && HasKey(lines[i], k) ==> lines[i][|KeyName(k)| + 1..] == ValueOf(c, k))
  }

  /**
   * Reading the rewritten file back: each key has a line, and every line
   * that starts with `KEY=` carries exactly the new value after the `=`.
   */
  lemma RewrittenFileHoldsValues(content: string, c: Credential)
    requires NoNewline(c.accessToken) && NoNewline(c.refreshToken)
    ensures HoldsValues(Split(UpdateEnvContent(content, c)), c)
  {
    var r := UpdatedLines(Split(content), c);
    UpdatedLinesNoNewlines(Split(content), c);
    SplitJoin(r);
    assert Split(UpdateEnvContent(content, c)) == r;
    UpdatedLinesHoldNewValues(Split(content), c);
    forall i, k | 0 <= i < |r| && HasKey(r[i], k) ensures r[i][|KeyName(k)| + 1..] == ValueOf(c, k) {
      EntryValue(c, k);
    }
  }

  /** The three entries, spelled out. */
  lemma EntryLiterals(c: Credential)
    ensures Entry(c, AccessToken) == "WHOOP_ACCESS_TOKEN=" + c.accessToken
    ensures Entry(c, RefreshToken) == "WHOOP_REFRESH_TOKEN=" + c.refreshToken
    ensures Entry(c, ExpiresAt) == "WHOOP_TOKEN_EXPIRES_AT=" + IntToString(c.expiresAt)
  {
  }

  /** A line `WHOOP_ACCESS_TOKEN=v` is an access token line, and only that. */
  lemma AccessLine(v: string)
    ensures MatchKey("WHOOP_ACCESS_TOKEN=" + v) == Some(AccessToken)
    ensures NoNewline(v) ==> NoNewline("WHOOP_ACCESS_TOKEN=" + v)
  {
    var line := "WHOOP_ACCESS_TOKEN=" + v;
    assert line == Entry(Credential(v, "", 0), AccessToken);
    EntryHasOnlyItsKey(Credential(v, "", 0), AccessToken, AccessToken);
    if NoNewline(v) {
      KeyPrefixNoNewline(AccessToken);
    }
  }

  /**
   * A key line between two unrelated lines, e.g. `A=1` and `B=2`: the
   * access token line is rewritten in place and the two absent keys are
   * appended after the last line.
   */
  lemma RewriteExample(a: string, b: string, oldValue: string, c: Credential)
    requires NoNewline(a) && NoNewline(b) && NoNewline(oldValue)
    requires MatchKey(a).None? && MatchKey(b).None?
    ensures UpdateEnvContent(Join([a, "WHOOP_ACCESS_TOKEN=" + oldValue, b]), c)
      == Join([a, "WHOOP_ACCESS_TOKEN=" + c.accessToken, b,
               "WHOOP_REFRESH_TOKEN=" + c.refreshToken, "WHOOP_TOKEN_EXPIRES_AT=" + IntToString(c.expiresAt)])
  {
    var lines := [a, "WHOOP_ACCESS_TOKEN=" + oldValue, b];
    AccessLine(oldValue);
    SplitJoin(lines);
    RewriteBetween(a, lines[1], b, c);
    EntryLiterals(c);
  }

  lemma OccursInThree(a: string, line: string, b: string, k: TokenKey)
    ensures Occurs([a, line, b], k) <==> HasKey(a, k) || HasKey(line, k) || HasKey(b, k)
  {
    var lines := [a, line, b];
    if Occurs(lines, k) {
      var i :| 0 <= i < 3 && HasKey(lines[i], k);
    }
    if HasKey(a, k) { assert HasKey(lines[0], k); }
    if HasKey(line, k) { assert HasKey(lines[1], k); }
    if HasKey(b, k) { assert HasKey(lines[2], k); }
  }

  /** With only an access token line among three, the other two keys are missing. */
  lemma MissingAroundAccess(a: string, line: string, b: string)
    requires MatchKey(a).None? && MatchKey(b).None? && MatchKey(line) == Some(AccessToken)
    ensures MissingKeys([a, line, b]) == [RefreshToken, ExpiresAt]
  {
    var seen := KeysIn([a, line, b]);
    forall k ensures k in seen <==> k == AccessToken {
      OccursInThree(a, line, b, k);
      if HasKey(line, k) { AtMostOneKey(line, k, AccessToken); }
      KeysInOccurs([a, line, b], k);
    }
    assert MissingKeys([a, line, b]) == Absent(true, false, false);
  }

  /** An access token line between two key-free lines: rewritten in place, the other two keys appended. */
  lemma RewriteBetween(a: string, line: string, b: string, c: Credential)
    requires MatchKey(a).None? && MatchKey(b).None? && MatchKey(line) == Some(AccessToken)
    ensures UpdatedLines([a, line, b], c) == [a, Entry(c, AccessToken), b, Entry(c, RefreshToken), Entry(c, ExpiresAt)]
  {
    MissingAroundAccess(a, line, b);
    var lines := [a, line, b];
    var out := [a, Entry(c, AccessToken), b, Entry(c, RefreshToken), Entry(c, ExpiresAt)];
    forall j | 0 <= j < |lines| ensures out[j] == RewriteLine(lines[j], c) {
      if j == 0 {
        assert RewriteLine(a, c) == a;
      } else if j == 1 {
        assert RewriteLine(line, c) == Entry(c, AccessToken);
      } else {
        assert RewriteLine(b, c) == b;
      }
    }
    UpdatedLinesPointwise(lines, c, out);
  }
}
