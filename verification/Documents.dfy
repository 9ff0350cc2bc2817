/** The documents and sources both the portal and the command line accept. */
module Documents {
  import opened Basics

  /** The sources a portal may be asked for. */
  const STABLE_SITES: set<string> := {"osiptel"}

  /** Whether a source takes a document. */
  type Accepts = (string, string) -> bool

  predicate Digit(c: char) { '0' <= c <= '9' }

  predicate Blank(c: char) { c in {' ', '\t', '\n', '\r', '\U{0B}', '\U{0C}'} }

  function StripLeft(s: string): string {
    if s != [] && Blank(s[0]) then StripLeft(s[1..]) else s
  }

  function StripRight(s: string): string {
    if s != [] && Blank(s[|s| - 1]) then StripRight(s[..|s| - 1]) else s
  }

  /** The canonical document: an 11-digit RUC, or a DNI padded to 8 digits. */
  function Document(value: string): Option<string> {
    var s := StripRight(StripLeft(value));
    if !(forall k :: 0 <= k < |s| ==> Digit(s[k])) then None
    else if |s| == 11 || |s| == 8 then Some(s)
    else if |s| == 7 then Some("0" + s)
    else None
  }

  /** The value is `blanks + digits + blanks`, and the document are the digits, a 7-digit DNI with a zero before it. */
  predicate Reads(value: string, i: nat, j: nat, document: string) {
    && i <= j <= |value|
    && (forall k :: 0 <= k < |value| && (k < i || j <= k) ==>
          value[k] in {' ', '\t', '\n', '\r', '\U{0B}', '\U{0C}'})
    && (forall k :: i <= k < j ==> '0' <= value[k] <= '9')
    && (((j - i == 11 || j - i == 8) && document == value[i..j]) || (j - i == 7 && document == "0" + value[i..j]))
  }

  lemma {:induction false} LeftStripped(s: string) returns (i: nat)
    ensures i <= |s| && StripLeft(s) == s[i..] && (i < |s| ==> !Blank(s[i]))
    ensures forall k :: 0 <= k < i ==> Blank(s[k])
  {
    if s == [] || !Blank(s[0]) {
      i := 0;
    } else {
      var rest := s[1..];
      var n := LeftStripped(rest);
      i := n + 1;
      assert rest[n..] == s[i..];
      assert forall k :: 0 < k < i ==> s[k] == rest[k - 1];
    }
  }

  lemma {:induction false} RightStripped(s: string) returns (j: nat)
    ensures j <= |s| && StripRight(s) == s[..j] && (j > 0 ==> !Blank(s[j - 1]))
    ensures forall k :: j <= k < |s| ==> Blank(s[k])
  {
    if s == [] || !Blank(s[|s| - 1]) {
      j := |s|;
    } else {
      j := RightStripped(s[..|s| - 1]);
    }
  }

  /** What is left of a value between its outer blanks. */
  lemma Stripped(value: string) returns (i: nat, j: nat)
    ensures i <= j <= |value| && StripRight(StripLeft(value)) == value[i..j]
    ensures forall k :: 0 <= k < |value| && (k < i || j <= k) ==> Blank(value[k])
    ensures i < j ==> !Blank(value[i]) && !Blank(value[j - 1])
  {
    hide StripLeft, StripRight, Blank;
    i := LeftStripped(value);
    var s := value[i..];
    var n := RightStripped(s);
    j := i + n;
    assert s[..n] == value[i..j];
    assert forall k :: i <= k < |value| ==> value[k] == s[k - i];
  }

  /** A value is a document exactly when it is 11, 8 or 7 digits between blanks. */
  lemma DocumentExactlyWhen(value: string, document: string)
    ensures Document(value) == Some(document) <==> exists i, j :: Reads(value, i, j, document)
  {
    var i, j := Stripped(value);
    hide StripLeft, StripRight;
    if Document(value) == Some(document) {
      forall k | i <= k < j ensures Digit(value[k]) {
        assert value[k] == value[i..j][k - i];
      }
      assert Reads(value, i, j, document);
    }
    if exists a, b :: Reads(value, a, b, document) {
      var a, b :| Reads(value, a, b, document);
      SameCut(value, i, j, a, b);
      assert forall k :: 0 <= k < j - i ==> value[i..j][k] == value[i + k];
    }
  }

  lemma SameCut(value: string, i: nat, j: nat, a: nat, b: nat)
    requires i <= j <= |value| && a < b <= |value|
    requires forall k :: 0 <= k < |value| && (k < i || j <= k) ==> Blank(value[k])
    requires i < j ==> !Blank(value[i]) && !Blank(value[j - 1])
    requires forall k :: 0 <= k < |value| && (k < a || b <= k) ==> Blank(value[k])
    requires forall k :: a <= k < b ==> Digit(value[k])
    ensures i == a && j == b
  {
    assert Digit(value[a]) && Digit(value[b - 1]);
  }

  lemma StripKeeps(s: string)
    requires forall k :: 0 <= k < |s| ==> Digit(s[k])
    ensures StripRight(StripLeft(s)) == s
  {
    assert s == [] || !Blank(s[0]);
  }

  /** Canonical documents are fixed points, so comparing them compares inputs. */
  lemma DocumentIsCanonical(value: string)
    requires Document(value).Some?
    ensures Document(Document(value).value) == Document(value)
  {
    StripKeeps(Document(value).value);
  }
}
