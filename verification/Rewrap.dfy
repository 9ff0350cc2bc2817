/**
 Master keys and the migration that moves every stored data key onto the active one.

 Encryption is symbolic: a sealed blob opens under the key that sealed it and no other.
 */
module Rewrap {
  import opened Basics
  import opened Documents

  // ------------------------------------------------------------------- the key file

  /** A symbolic 32-byte key; `decode` gives the key a base64 text stands for, if it does. */
  type Key = nat

  datatype Keyring = Keyring(active: string, keys: map<string, Key>) {
    predicate Valid() { active in keys }
  }

  datatype KeyError =
    | Malformed(line: nat)
    | Repeated(line: nat)
    | Empty
    | Missing(version: string)
    | Truncated
    | BadTag

  predicate VersionChar(c: char) {
    'a' <= c <= 'z' || 'A' <= c <= 'Z' || '0' <= c <= '9' || c in {'-', '_', '.'}
  }

  /** The first word of a text without leading blanks, and what follows it. */
  function FirstWord(s: string): string {
    if s == [] || Blank(s[0]) then [] else [s[0]] + FirstWord(s[1..])
  }

  lemma {:induction false} WordIsPrefix(s: string)
    ensures |FirstWord(s)| <= |s|
    ensures s != [] && !Blank(s[0]) ==> 0 < |FirstWord(s)|
  {
    if s != [] && !Blank(s[0]) {
      WordIsPrefix(s[1..]);
    }
  }

  /** A line that is blank or a comment says nothing. */
  predicate Silent(line: string) {
    var entry := StripRight(StripLeft(line));
    entry == [] || entry[0] == '#'
  }

  /** The version and key of a line: exactly two words, a plain version and a readable key. */
  function ParseLine(line: string, decode: string -> Option<Key>): Option<(string, Key)> {
    var entry := StripRight(StripLeft(line));
    WordIsPrefix(entry);
    var version := FirstWord(entry);
    var rest := StripLeft(entry[|version|..]);
    if rest == [] || FirstWord(rest) != rest then None
    else if exists k :: 0 <= k < |version| && !VersionChar(version[k]) then None
    else if decode(rest).None? then None
    else Some((version, decode(rest).value))
  }

  /** The line reads `<blanks>version<blanks>key<blanks>`: a version of plain characters and a readable key. */
  predicate KeyLine(line: string, a: nat, b: nat, c: nat, d: nat, version: string, text: string) {
    && a < b < c < d <= |line|
    && (forall k :: 0 <= k < |line| && (k < a || b <= k < c || d <= k) ==> Blank(line[k]))
    && (forall k :: a <= k < b ==>
          'a' <= line[k] <= 'z' || 'A' <= line[k] <= 'Z' || '0' <= line[k] <= '9' || line[k] in {'-', '_', '.'})
    && (forall k :: c <= k < d ==> !Blank(line[k]))
    && version == line[a..b] && text == line[c..d]
  }

  lemma {:induction false} WordEnds(s: string)
    ensures |FirstWord(s)| <= |s| && FirstWord(s) == s[..|FirstWord(s)|]
    ensures forall k :: 0 <= k < |FirstWord(s)| ==> !Blank(s[k])
    ensures |FirstWord(s)| < |s| ==> Blank(s[|FirstWord(s)|])
  {
    if s != [] && !Blank(s[0]) {
      WordEnds(s[1..]);
      var n := |FirstWord(s[1..])|;
      assert FirstWord(s) == [s[0]] + s[1..][..n] == s[..n + 1];
      assert forall k :: 0 < k < |s| ==> s[k] == s[1..][k - 1];
    }
  }

  /** Where blanks, or other characters, first end is one place. */
  lemma FirstEnd(s: string, blank: bool, m: nat, n: nat)
    requires m <= |s| && n <= |s|
    requires (forall k :: 0 <= k < m ==> Blank(s[k]) == blank) && (m < |s| ==> Blank(s[m]) != blank)
    requires (forall k :: 0 <= k < n ==> Blank(s[k]) == blank) && (n < |s| ==> Blank(s[n]) != blank)
    ensures m == n
  {
    var _ := m < |s| && Blank(s[m]);
    var _ := n < |s| && Blank(s[n]);
  }

  /** The first word of a text is what stands before its first blank. */
  lemma WordIs(s: string, n: nat)
    requires n <= |s| && (forall k :: 0 <= k < n ==> !Blank(s[k])) && (n < |s| ==> Blank(s[n]))
    ensures FirstWord(s) == s[..n]
  {
    WordEnds(s);
    FirstEnd(s, false, |FirstWord(s)|, n);
  }

  lemma LeftIs(s: string, n: nat)
    requires n < |s| && !Blank(s[n]) && forall k :: 0 <= k < n ==> Blank(s[k])
    ensures StripLeft(s) == s[n..]
  {
    var m := LeftStripped(s);
    FirstEnd(s, true, m, n);
  }

  /** What is left of a line with its two ends is where its words start and end. */
  lemma LineIs(line: string, a: nat, d: nat)
    requires a < d <= |line| && !Blank(line[a]) && !Blank(line[d - 1])
    requires forall k :: 0 <= k < |line| && (k < a || d <= k) ==> Blank(line[k])
    ensures StripRight(StripLeft(line)) == line[a..d]
  {
    hide StripLeft, StripRight, Blank;
    var i, j := Stripped(line);
    SameEnds(line, i, j, a, d);
  }

  lemma SameEnds(line: string, i: nat, j: nat, a: nat, d: nat)
    requires a < d <= |line| && !Blank(line[a]) && !Blank(line[d - 1])
    requires forall k :: 0 <= k < |line| && (k < a || d <= k) ==> Blank(line[k])
    requires i <= j <= |line| && (i < j ==> !Blank(line[i]) && !Blank(line[j - 1]))
    requires forall k :: 0 <= k < |line| && (k < i || j <= k) ==> Blank(line[k])
    ensures i == a && j == d
  {
    hide Blank;
    var _ := i < |line| && Blank(line[i]);
    var _ := j > 0 && Blank(line[j - 1]);
  }

  lemma KeyLineParses(line: string, decode: string -> Option<Key>, a: nat, b: nat, c: nat, d: nat, version: string,
      text: string)
    requires KeyLine(line, a, b, c, d, version, text)
    ensures ParseLine(line, decode) ==
      if decode(text).Some? then Some((version, decode(text).value)) else None
  {
    hide StripLeft, StripRight, FirstWord, Blank;
    KeyLineBlanks(line, a, b, c, d, version, text);
    hide KeyLine;
    hide VersionChar;
    var entry := line[a..d];
    LineIs(line, a, d);
    assert forall k :: 0 <= k < b - a ==> entry[k] == line[a + k];
    WordIs(entry, b - a);
    assert entry[..b - a] == version && entry[b - a..] == line[b..d];
    RestIs(line, b, c, d);
    assert forall k :: 0 <= k < |version| ==> version[k] == line[a + k];
  }

  lemma RestIs(line: string, b: nat, c: nat, d: nat)
    requires b < c < d <= |line| && (forall k :: b <= k < c ==> Blank(line[k]))
    requires forall k :: c <= k < d ==> !Blank(line[k])
    ensures StripLeft(line[b..d]) == line[c..d] == FirstWord(line[c..d])
  {
    hide StripLeft, FirstWord, Blank;
    var rest, text := line[b..d], line[c..d];
    assert forall k :: 0 <= k <= c - b ==> rest[k] == line[b + k];
    LeftIs(rest, c - b);
    assert rest[c - b..] == text;
    assert forall k :: 0 <= k < d - c ==> text[k] == line[c + k];
    WordIs(text, d - c);
    assert text[..d - c] == text;
  }

  lemma KeyLineBlanks(line: string, a: nat, b: nat, c: nat, d: nat, version: string, text: string)
    requires KeyLine(line, a, b, c, d, version, text)
    ensures a < b < c < d <= |line| && version == line[a..b] && text == line[c..d]
    ensures forall k :: 0 <= k < |line| && (k < a || b <= k < c || d <= k) ==> Blank(line[k])
    ensures forall k :: a <= k < b ==> !Blank(line[k]) && VersionChar(line[k])
    ensures forall k :: c <= k < d ==> !Blank(line[k])
  {
  }

  /** A line gives a version and a key exactly when it is two such words between blanks. */
  lemma ParsesExactlyWhen(line: string, decode: string -> Option<Key>, version: string, key: Key)
    ensures ParseLine(line, decode) == Some((version, key)) <==>
      exists a, b, c, d, text :: KeyLine(line, a, b, c, d, version, text) && decode(text) == Some(key)
  {
    if ParseLine(line, decode) == Some((version, key)) {
      ParsedIsKeyLine(line, decode);
    }
    if a, b, c, d, text :| KeyLine(line, a, b, c, d, version, text) && decode(text) == Some(key) {
      KeyLineParses(line, decode, a, b, c, d, version, text);
    }
  }

  lemma ParsedIsKeyLine(line: string, decode: string -> Option<Key>)
    requires ParseLine(line, decode).Some?
    ensures exists a, b, c, d, text ::
      KeyLine(line, a, b, c, d, ParseLine(line, decode).value.0, text) &&
        decode(text) == Some(ParseLine(line, decode).value.1)
  {
    hide StripLeft, StripRight, Blank, FirstWord, KeyLine, VersionChar;
    var a, d := Stripped(line);
    var entry := line[a..d];
    WordEnds(entry);
    var version := FirstWord(entry);
    var n := |version|;
    var rest := entry[n..];
    var m := LeftStripped(rest);
    var text := rest[m..];
    WordEnds(text);
    WordIsWhole(text);
    assert text == line[a + n + m..d] && version == line[a..a + n];
    assert entry[0] == line[a] && rest[0] == entry[n];
    assert forall k :: a + n <= k < a + n + m ==> line[k] == rest[k - a - n];
    assert forall k :: a + n + m <= k < d ==> line[k] == text[k - a - n - m];
    forall k | a <= k < a + n ensures VersionChar(line[k]) {
      assert line[k] == version[k - a];
    }
    BlanksKeyLine(line, a, a + n, a + n + m, d, version, text);
  }

  lemma BlanksKeyLine(line: string, a: nat, b: nat, c: nat, d: nat, version: string, text: string)
    requires a < b < c < d <= |line| && version == line[a..b] && text == line[c..d]
    requires forall k :: 0 <= k < |line| && (k < a || b <= k < c || d <= k) ==> Blank(line[k])
    requires forall k :: a <= k < b ==> VersionChar(line[k])
    requires forall k :: c <= k < d ==> !Blank(line[k])
    ensures KeyLine(line, a, b, c, d, version, text)
  {
  }

  lemma WordIsWhole(text: string)
    requires FirstWord(text) == text
    ensures forall k :: 0 <= k < |text| ==> !Blank(text[k])
  {
    WordEnds(text);
  }

  /** A line is passed over exactly when it is blank or its first character that is not is a hash. */
  lemma SilentExactlyWhen(line: string)
    ensures Silent(line) <==>
      || (forall k :: 0 <= k < |line| ==> Blank(line[k]))
      || exists a :: 0 <= a < |line| && line[a] == '#' && forall k :: 0 <= k < a ==> Blank(line[k])
  {
    var i, j := Stripped(line);
    if a :| 0 <= a < |line| && line[a] == '#' && forall k :: 0 <= k < a ==> Blank(line[k]) {
      assert i <= a;
    }
  }

  /** The keys of the first `n` lines in order, while they are well formed and distinct. */
  ghost predicate Lists(lines: seq<string>, n: nat, decode: string -> Option<Key>, order: seq<string>,
      keys: map<string, Key>)
    requires n <= |lines|
  {
    && NoDuplicates(order)
    && (forall v :: v in order <==> v in keys)
    && (forall k :: 0 <= k < n && !Silent(lines[k]) ==>
          var p := ParseLine(lines[k], decode); p.Some? && p.value.0 in keys && keys[p.value.0] == p.value.1)
    && (forall v :: v in keys ==> Names(lines, n, decode, v))
    && (order != [] ==> FirstNamed(lines, n, decode, order[0]))
  }

  /** No line before `n` is at fault. */
  ghost predicate InOrderUpTo(lines: seq<string>, n: nat, decode: string -> Option<Key>)
    requires n <= |lines|
  {
    exists order, keys :: Lists(lines, n, decode, order, keys)
  }

  ghost predicate Names(lines: seq<string>, n: nat, decode: string -> Option<Key>, version: string)
    requires n <= |lines|
  {
    exists k :: 0 <= k < n && !Silent(lines[k]) && ParseLine(lines[k], decode).Some? &&
      ParseLine(lines[k], decode).value.0 == version
  }

  /** The first line that says anything is for this version. */
  ghost predicate FirstNamed(lines: seq<string>, n: nat, decode: string -> Option<Key>, version: string)
    requires n <= |lines|
  {
    exists k :: 0 <= k < n && !Silent(lines[k]) && (forall j :: 0 <= j < k ==> Silent(lines[j]))
                && ParseLine(lines[k], decode).Some? && ParseLine(lines[k], decode).value.0 == version
  }

  /** Every line is kept and the first is active, or the first line at fault is named. */
  method FromLines(lines: seq<string>, decode: string -> Option<Key>) returns (r: Result<Keyring, KeyError>)
    ensures r.Success? ==> r.value.Valid() && exists order :: order != [] && order[0] == r.value.active
                                                             && Lists(lines, |lines|, decode, order, r.value.keys)
    ensures r == Failure(Empty) ==> forall k :: 0 <= k < |lines| ==> Silent(lines[k])
    ensures r.Failure? && r.error.Malformed? ==>
      0 < r.error.line <= |lines| && !Silent(lines[r.error.line - 1]) &&
        ParseLine(lines[r.error.line - 1], decode).None?
    ensures r.Failure? && r.error.Repeated? ==>
      && 0 < r.error.line <= |lines| && !Silent(lines[r.error.line - 1])
      && ParseLine(lines[r.error.line - 1], decode).Some?
      && Names(lines, r.error.line - 1, decode, ParseLine(lines[r.error.line - 1], decode).value.0)
    ensures r.Failure? && !r.error.Empty? ==>
      (r.error.Malformed? || r.error.Repeated?) && 0 < r.error.line <= |lines| &&
        InOrderUpTo(lines, r.error.line - 1, decode)
  {
    var keys: map<string, Key> := map[];
    var order: seq<string> := [];
    hide ParseLine, Silent;
    for n := 0 to |lines|
      invariant Lists(lines, n, decode, order, keys)
      invariant order == [] ==> forall k :: 0 <= k < n ==> Silent(lines[k])
    {
      if Silent(lines[n]) {
        KeepsListing(lines, n, decode, order, keys);
        continue;
      }
      var parsed := ParseLine(lines[n], decode);
      if parsed.None? {
        return Failure(Malformed(n + 1));
      }
      var version := parsed.value.0;
      if version in keys {
        return Failure(Repeated(n + 1));
      }
      ListsMore(lines, n, decode, order, keys);
      keys := keys[version := parsed.value.1];
      order := order + [version];
    }
    if order == [] {
      return Failure(Empty);
    }
    return Success(Keyring(order[0], keys));
  }

  lemma KeepsListing(lines: seq<string>, n: nat, decode: string -> Option<Key>, order: seq<string>,
      keys: map<string, Key>)
    requires n < |lines| && Lists(lines, n, decode, order, keys) && Silent(lines[n])
    ensures Lists(lines, n + 1, decode, order, keys)
  {
    hide ParseLine, Silent;
    forall v | v in keys ensures Names(lines, n + 1, decode, v) {
      assert Names(lines, n, decode, v);
    }
  }

  lemma ListsMore(lines: seq<string>, n: nat, decode: string -> Option<Key>, order: seq<string>, keys: map<string, Key>)
    requires n < |lines| && Lists(lines, n, decode, order, keys) && !Silent(lines[n])
    requires ParseLine(lines[n], decode).Some?
    requires ParseLine(lines[n], decode).value.0 !in keys
    requires order == [] ==> forall k :: 0 <= k < n ==> Silent(lines[k])
    ensures var p := ParseLine(lines[n], decode).value; Lists(lines, n + 1, decode, order + [p.0], keys[p.0 := p.1])
  {
    hide ParseLine, Silent;
    var p := ParseLine(lines[n], decode).value;
    assert Names(lines, n + 1, decode, p.0);
    forall v | v in keys ensures Names(lines, n + 1, decode, v) {
      assert Names(lines, n, decode, v);
    }
    if order == [] {
      assert FirstNamed(lines, n + 1, decode, p.0);
    } else {
      assert FirstNamed(lines, n, decode, order[0]);
      assert (order + [p.0])[0] == order[0];
    }
  }

  // ------------------------------------------------------------- wrapped data keys

  /** What is stored of a data key: too short to be anything, or sealed under a master key. */
  datatype Blob = Short | Sealed(under: Key, dataKey: Key)

  function Unwrap(keyring: Keyring, wrapped: Blob, version: string): Result<Key, KeyError> {
    if version !in keyring.keys then Failure(Missing(version))
    else if wrapped.Short? then Failure(Truncated)
    else if wrapped.under != keyring.keys[version] then Failure(BadTag)
    else Success(wrapped.dataKey)
  }

  /** Why a secret does not open: its version has no key, or there is nothing sealed, or it is sealed under another. */
  predicate StaysShut(secret: Secret, keyring: Keyring, e: KeyError) {
    if secret.version !in keyring.keys then e == Missing(secret.version)
    else if secret.wrapped == Short then e == Truncated
    else secret.wrapped.under != keyring.keys[secret.version] && e == BadTag
  }

  function Wrap(keyring: Keyring, dataKey: Key): Blob
    requires keyring.Valid()
  {
    Sealed(keyring.keys[keyring.active], dataKey)
  }

  /** A keyring file cut down to its active line. */
  function OnlyActive(keyring: Keyring): Keyring
    requires keyring.Valid()
  {
    Keyring(keyring.active, map[keyring.active := keyring.keys[keyring.active]])
  }

  /** A stored secret: its payload is encrypted under `dataKey`. A credential is always enabled. */
  datatype Secret = Secret(enabled: bool, dataKey: Key, wrapped: Blob, version: string)

  type Table = map<nat, Secret>

  predicate Opens(secret: Secret, keyring: Keyring) {
    Unwrap(keyring, secret.wrapped, secret.version) == Success(secret.dataKey)
  }

  predicate Usable(secret: Secret, keyring: Keyring) {
    secret.enabled ==> Opens(secret, keyring)
  }

  predicate AllUsable(rows: Table, keyring: Keyring) {
    forall id :: id in rows ==> Usable(rows[id], keyring)
  }

  /** The rows of the query: enabled, and sealed under another line than the active one. */
  function ToMove(rows: Table, keyring: Keyring): (ids: set<nat>)
    ensures forall id :: id in ids ==> id in rows && rows[id].enabled && rows[id].version != keyring.active
    ensures forall id :: id in rows && rows[id].enabled && id !in ids ==> rows[id].version == keyring.active
  {
    set id | id in rows && rows[id].enabled && rows[id].version != keyring.active
  }

  /** The order in which the query returns the rows to move. */
  predicate Selected(rows: Table, order: seq<nat>, keyring: Keyring) {
    Enumerates(order, ToMove(rows, keyring)) && forall id :: id in order ==> id in rows
  }

  // -------------------------------------------------------------------- the migration

  /** What someone else does to a row before the next update: nothing, a new secret, or none any more. */
  datatype Change = Quiet | Enroll(id: nat, secret: Secret) | Disable(id: nat)

  function Changed(rows: Table, c: Change): Table {
    match c
    case Quiet => rows
    case Enroll(id, secret) => rows[id := secret]
    case Disable(id) => if id in rows then rows[id := rows[id].(enabled := false)] else rows
  }

  function Moved(rows: Table, id: nat, dataKey: Key, keyring: Keyring): Table
    requires keyring.Valid()
  {
    if id in rows then rows[id := rows[id].(wrapped := Wrap(keyring, dataKey), version := keyring.active)] else rows
  }

  datatype Progress = Progress(rows: Table, error: Option<KeyError>)

  /** After `n` updates of the rows selected in `start`; an update that raises ends the loop. */
  function After(start: Table, order: seq<nat>, changes: seq<Change>, keyring: Keyring, n: nat): Progress
    requires keyring.Valid() && n <= |order| == |changes| && forall id :: id in order ==> id in start
  {
    if n == 0 then Progress(start, None)
    else
      var before := After(start, order, changes, keyring, n - 1);
      if before.error.Some? then before
      else
        var now, id := Changed(before.rows, changes[n - 1]), order[n - 1];
        match Unwrap(keyring, start[id].wrapped, start[id].version)
        case Failure(e) => Progress(now, Some(e))
        case Success(dataKey) => Progress(Moved(now, id, dataKey, keyring), None)
  }

  class PortalSecrets {
    var credentials: Table
    var users: Table

    constructor (credentials: Table, users: Table)
      ensures this.credentials == credentials && this.users == users
    {
      this.credentials, this.users := credentials, users;
    }

    /** The rows are read once, in some order, and then updated one statement at a time. */
    method RewrapCredentials(keyring: Keyring, order: seq<nat>, changes: seq<Change>) returns (r: Result<nat, KeyError>)
      requires keyring.Valid() && |changes| == |order| && Selected(credentials, order, keyring)
      modifies this`credentials
      ensures r.Success? ==> r.value == |ToMove(old(credentials), keyring)|
      ensures r.Success? ==> After(old(credentials), order, changes, keyring, |order|) == Progress(credentials, None)
      ensures r.Failure? ==>
        After(old(credentials), order, changes, keyring, |order|) == Progress(credentials, Some(r.error))
      ensures r.Failure? ==> exists id :: id in order && StaysShut(old(credentials)[id], keyring, r.error)
    {
      var start := credentials;
      EnumerationSize(order, ToMove(start, keyring));
      for n := 0 to |order|
        invariant After(start, order, changes, keyring, n) == Progress(credentials, None)
      {
        credentials := Changed(credentials, changes[n]);
        assert order[n] in order;
        var row := start[order[n]];
        var unwrapped := Unwrap(keyring, row.wrapped, row.version);
        if unwrapped.Failure? {
          StopsForGood(start, order, changes, keyring, n + 1, |order|);
          assert StaysShut(start[order[n]], keyring, unwrapped.error);
          return Failure(unwrapped.error);
        }
        credentials := Moved(credentials, order[n], unwrapped.value, keyring);
      }
      return Success(|order|);
    }

    method RewrapMfaSecrets(keyring: Keyring, order: seq<nat>, changes: seq<Change>) returns (r: Result<nat, KeyError>)
      requires keyring.Valid() && |changes| == |order| && Selected(users, order, keyring)
      modifies this`users
      ensures r.Success? ==> r.value == |ToMove(old(users), keyring)|
      ensures r.Success? ==> After(old(users), order, changes, keyring, |order|) == Progress(users, None)
      ensures r.Failure? ==> After(old(users), order, changes, keyring, |order|) == Progress(users, Some(r.error))
      ensures r.Failure? ==> exists id :: id in order && StaysShut(old(users)[id], keyring, r.error)
    {
      var start := users;
      EnumerationSize(order, ToMove(start, keyring));
      for n := 0 to |order|
        invariant After(start, order, changes, keyring, n) == Progress(users, None)
      {
        users := Changed(users, changes[n]);
        assert order[n] in order;
        var row := start[order[n]];
        var unwrapped := Unwrap(keyring, row.wrapped, row.version);
        if unwrapped.Failure? {
          StopsForGood(start, order, changes, keyring, n + 1, |order|);
          assert StaysShut(start[order[n]], keyring, unwrapped.error);
          return Failure(unwrapped.error);
        }
        users := Moved(users, order[n], unwrapped.value, keyring);
      }
      return Success(|order|);
    }
  }

  lemma {:induction false} StopsForGood(start: Table, order: seq<nat>, changes: seq<Change>, keyring: Keyring, n: nat,
      m: nat)
    requires keyring.Valid() && n <= m <= |order| == |changes| && forall id :: id in order ==> id in start
    requires After(start, order, changes, keyring, n).error.Some?
    ensures After(start, order, changes, keyring, m) == After(start, order, changes, keyring, n)
    decreases m
  {
    if n < m {
      StopsForGood(start, order, changes, keyring, n, m - 1);
    }
  }

  // -------------------------------------------------------------- safe at every prefix

  /** A run of a table that opens; nobody enrolls a secret that does not, or reuses a data key. */
  ghost predicate Migrates(start: Table, order: seq<nat>, changes: seq<Change>, keyring: Keyring) {
    && keyring.Valid() && |changes| == |order|
    && Enumerates(order, ToMove(start, keyring))
    && (forall id :: id in order ==> id in start && start[id].enabled)
    && AllUsable(start, keyring)
    && (forall k :: 0 <= k < |changes| && changes[k].Enroll? ==>
          && Usable(changes[k].secret, keyring) && changes[k].secret.enabled
          && (changes[k].id in start ==> changes[k].secret.dataKey != start[changes[k].id].dataKey))
  }

  /** The last of the first `n` changes to the row, if any, enrolled a new secret. */
  predicate Reenrolled(changes: seq<Change>, n: nat, id: nat)
    requires n <= |changes|
  {
    n > 0 && (if changes[n - 1] == Disable(id) then false
              else (changes[n - 1].Enroll? && changes[n - 1].id == id) || Reenrolled(changes, n - 1, id))
  }

  /** A selected row is enrolled anew before its own update. */
  predicate Overtaken(order: seq<nat>, changes: seq<Change>, k: nat)
    requires k < |order| == |changes|
  {
    Reenrolled(changes, k + 1, order[k])
  }

  /** While nothing was overtaken: the rows open, and a selected row still waiting is as it was read. */
  ghost predicate InOrder(start: Table, order: seq<nat>, changes: seq<Change>, keyring: Keyring, n: nat)
    requires Migrates(start, order, changes, keyring) && n <= |order|
  {
    var p := After(start, order, changes, keyring, n);
    && p.error.None?
    && AllUsable(p.rows, keyring)
    && (forall id :: id in start ==> id in p.rows)
    && (forall id :: id in start && p.rows[id].enabled && !Reenrolled(changes, n, id) ==>
          p.rows[id].dataKey == start[id].dataKey)
    && (forall id :: id in start && Reenrolled(changes, n, id) ==>
          p.rows[id].enabled && p.rows[id].dataKey != start[id].dataKey)
  }

  /** The next update seals the data key that was read, in whatever the row is by then. */
  lemma AfterNext(start: Table, order: seq<nat>, changes: seq<Change>, keyring: Keyring, n: nat)
    requires Migrates(start, order, changes, keyring) && n < |order|
    requires After(start, order, changes, keyring, n).error.None?
    ensures order[n] in start && start[order[n]].enabled
    ensures After(start, order, changes, keyring, n + 1) ==
      Progress(Moved(Changed(After(start, order, changes, keyring, n).rows, changes[n]), order[n],
        start[order[n]].dataKey, keyring), None)
  {
    hide Changed, Moved, Enumerates, ToMove;
    assert order[n] in order && Usable(start[order[n]], keyring);
  }

  lemma ChangeKeepsOrder(start: Table, order: seq<nat>, changes: seq<Change>, keyring: Keyring, n: nat)
    requires Migrates(start, order, changes, keyring) && n < |order| && InOrder(start, order, changes, keyring, n)
    ensures var now := Changed(After(start, order, changes, keyring, n).rows, changes[n]);
      && AllUsable(now, keyring)
      && (forall id :: id in start ==> id in now)
      && (forall id :: id in start && now[id].enabled && !Reenrolled(changes, n + 1, id) ==>
            now[id].dataKey == start[id].dataKey)
      && (forall id :: id in start && Reenrolled(changes, n + 1, id) ==>
            now[id].enabled && now[id].dataKey != start[id].dataKey)
  {
    hide Opens;
  }

  /** An update that was not overtaken keeps everything open; one that was locks its row. */
  lemma UpdateKeepsOrder(start: Table, order: seq<nat>, changes: seq<Change>, keyring: Keyring, n: nat)
    requires Migrates(start, order, changes, keyring) && n < |order| && InOrder(start, order, changes, keyring, n)
    ensures !Overtaken(order, changes, n) ==> InOrder(start, order, changes, keyring, n + 1)
    ensures Overtaken(order, changes, n) ==> !AllUsable(After(start, order, changes, keyring, n + 1).rows, keyring)
  {
    hide After, Changed, Enumerates, Reenrolled, ToMove;
    ChangeKeepsOrder(start, order, changes, keyring, n);
    AfterNext(start, order, changes, keyring, n);
    if Overtaken(order, changes, n) {
      assert !Usable(After(start, order, changes, keyring, n + 1).rows[order[n]], keyring);
    }
  }

  lemma OrderAtStart(start: Table, order: seq<nat>, changes: seq<Change>, keyring: Keyring)
    requires Migrates(start, order, changes, keyring)
    ensures InOrder(start, order, changes, keyring, 0)
  {
    hide Usable, Enumerates;
  }

  lemma {:induction false} OrderLasts(start: Table, order: seq<nat>, changes: seq<Change>, keyring: Keyring, n: nat)
    requires Migrates(start, order, changes, keyring) && n <= |order|
    requires forall k :: 0 <= k < n ==> !Overtaken(order, changes, k)
    ensures InOrder(start, order, changes, keyring, n)
  {
    hide Migrates, InOrder, Overtaken, After;
    if n == 0 {
      OrderAtStart(start, order, changes, keyring);
    } else {
      OrderLasts(start, order, changes, keyring, n - 1);
      UpdateKeepsOrder(start, order, changes, keyring, n - 1);
    }
  }

  lemma FirstOvertaken(order: seq<nat>, changes: seq<Change>, n: nat) returns (k: nat)
    requires n <= |order| == |changes| && exists j :: 0 <= j < n && Overtaken(order, changes, j)
    ensures k < n && Overtaken(order, changes, k) && forall j :: 0 <= j < k ==> !Overtaken(order, changes, j)
  {
    k := 0;
    while !Overtaken(order, changes, k)
      invariant k < n && forall j :: 0 <= j < k ==> !Overtaken(order, changes, j)
      decreases n - k
    {
      k := k + 1;
    }
  }

  /**
   After every prefix of the loop each enabled secret opens under the full keyring,
   exactly when no selected row is enrolled anew between the query and its own update.
   */
  lemma PrefixesOpenExactlyWhen(start: Table, order: seq<nat>, changes: seq<Change>, keyring: Keyring, n: nat)
    requires Migrates(start, order, changes, keyring) && n <= |order|
    ensures (forall k :: 0 <= k <= n ==> AllUsable(After(start, order, changes, keyring, k).rows, keyring))
       <==> (forall k :: 0 <= k < n ==> !Overtaken(order, changes, k))
  {
    if k :| 0 <= k < n && Overtaken(order, changes, k) {
      var first := FirstOvertaken(order, changes, n);
      OrderLasts(start, order, changes, keyring, first);
      UpdateKeepsOrder(start, order, changes, keyring, first);
    } else {
      forall k | 0 <= k <= n ensures AllUsable(After(start, order, changes, keyring, k).rows, keyring) {
        OrderLasts(start, order, changes, keyring, k);
      }
    }
  }

  /** A user whose secret is sealed under the old key enrolls again, under the active one, before the update. */
  const OLD_AND_NEW := Keyring("new", map["new" := 1, "old" := 2])

  const BEFORE := Secret(true, 10, Sealed(2, 10), "old")

  const ENROLLED := Secret(true, 20, Sealed(1, 20), "new")

  /** The update then seals the old data key for the new payload, which nothing opens any more. */
  lemma ReenrolledSecretIsLost()
    ensures Migrates(map[7 := BEFORE], [7], [Enroll(7, ENROLLED)], OLD_AND_NEW)
    ensures Overtaken([7], [Enroll(7, ENROLLED)], 0)
    ensures var p := After(map[7 := BEFORE], [7], [Enroll(7, ENROLLED)], OLD_AND_NEW, 1);
      p == Progress(map[7 := ENROLLED.(wrapped := Sealed(1, 10))], None) && !Usable(p.rows[7], OLD_AND_NEW)
  {
    var start, changes := map[7 := BEFORE], [Enroll(7, ENROLLED)];
    assert ToMove(start, OLD_AND_NEW) == {7} == (set x | x in [7]);
    assert Reenrolled(changes, 1, 7);
    assert After(start, [7], changes, OLD_AND_NEW, 0) == Progress(start, None);
    assert Changed(start, changes[0]) == map[7 := ENROLLED];
  }

  // ------------------------------------------------------------------ a complete run

  ghost predicate AllQuiet(changes: seq<Change>) {
    forall k :: 0 <= k < |changes| ==> changes[k] == Quiet
  }

  lemma {:induction false} QuietIsNotReenrolled(changes: seq<Change>, n: nat, id: nat)
    requires AllQuiet(changes) && n <= |changes|
    ensures !Reenrolled(changes, n, id)
  {
    if n > 0 {
      QuietIsNotReenrolled(changes, n - 1, id);
    }
  }

  lemma NothingMoved(start: Table, order: seq<nat>, changes: seq<Change>, keyring: Keyring)
    requires Migrates(start, order, changes, keyring)
    ensures After(start, order, changes, keyring, 0) == Progress(start, None)
  {
  }

  /** Undisturbed, only the selected rows change, and only how their data keys are wrapped. */
  lemma {:induction false} OnlySelectedMove(start: Table, order: seq<nat>, changes: seq<Change>, keyring: Keyring,
      n: nat)
    requires Migrates(start, order, changes, keyring) && AllQuiet(changes) && n <= |order|
    ensures var p := After(start, order, changes, keyring, n);
      && p.error.None? && p.rows.Keys == start.Keys
      && (forall id :: id in start ==>
            p.rows[id] ==
              if id in order[..n] then
                start[id].(wrapped := Wrap(keyring, start[id].dataKey), version := keyring.active)
              else start[id])
  {
    hide After, Enumerates, Usable, ToMove;
    if n == 0 {
      NothingMoved(start, order, changes, keyring);
    } else {
      OnlySelectedMove(start, order, changes, keyring, n - 1);
      AfterNext(start, order, changes, keyring, n - 1);
      assert order[..n] == order[..n - 1] + [order[n - 1]];
    }
  }

  /** Afterwards every enabled secret opens under the active line alone, and another run moves nothing. */
  lemma CompleteRunRetiresOldKeys(start: Table, order: seq<nat>, changes: seq<Change>, keyring: Keyring)
    requires Migrates(start, order, changes, keyring) && AllQuiet(changes)
    ensures var rows := After(start, order, changes, keyring, |order|).rows;
      && AllUsable(rows, OnlyActive(keyring))
      && ToMove(rows, keyring) == {}
      && (forall id :: id in start ==>
            id in rows && rows[id].dataKey == start[id].dataKey && rows[id].enabled == start[id].enabled)
      && (forall id :: id in rows && rows[id].enabled ==>
            && rows[id].version == keyring.active
            && rows[id].wrapped == Sealed(keyring.keys[keyring.active], rows[id].dataKey))
  {
    OnlySelectedMove(start, order, changes, keyring, |order|);
    assert order[..|order|] == order;
    var rows := After(start, order, changes, keyring, |order|).rows;
    forall id | id in rows && rows[id].enabled
      ensures rows[id].version == keyring.active && Opens(rows[id], OnlyActive(keyring))
      ensures rows[id].wrapped == Sealed(keyring.keys[keyring.active], rows[id].dataKey)
    {
      assert Usable(start[id], keyring);
      if start[id].version != keyring.active {
        assert id in ToMove(start, keyring);
        assert id in (set x | x in order);
      }
    }
  }

  // ------------------------------------------------------------------ a missing key

  /**
   Whatever the table, an undisturbed run takes no secret away: one that opened before
   opens at every prefix, also when a missing key ends the run.
   */
  lemma {:induction false} NothingIsLost(start: Table, order: seq<nat>, changes: seq<Change>, keyring: Keyring, n: nat,
      id: nat)
    requires keyring.Valid() && n <= |order| == |changes| && AllQuiet(changes)
    requires Enumerates(order, ToMove(start, keyring))
    requires forall x :: x in order ==> x in start
    requires id in start && Opens(start[id], keyring)
    ensures var p := After(start, order, changes, keyring, n);
      id in p.rows && Opens(p.rows[id], keyring) && p.rows[id].dataKey == start[id].dataKey
  {
    if n > 0 {
      NothingIsLost(start, order, changes, keyring, n - 1, id);
    }
  }

  /** An undisturbed run completes exactly when every selected row can be unwrapped. */
  lemma {:induction false} CompletesExactlyWhen(start: Table, order: seq<nat>, changes: seq<Change>, keyring: Keyring,
      n: nat)
    requires keyring.Valid() && n <= |order| == |changes| && forall x :: x in order ==> x in start
    ensures After(start, order, changes, keyring, n).error.None?
       <==> forall k :: 0 <= k < n ==>
              && start[order[k]].version in keyring.keys && start[order[k]].wrapped.Sealed?
              && start[order[k]].wrapped.under == keyring.keys[start[order[k]].version]
  {
    if n > 0 {
      CompletesExactlyWhen(start, order, changes, keyring, n - 1);
    }
  }
}
