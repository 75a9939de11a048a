/** SSH key ids: the comma-separated value of the referenced secret. */
module SshKeys {
  import opened Prelude
  import opened Text

  /** unicode.IsSpace */
  predicate IsSpace(c: char) {
    || '\t' <= c <= '\r' || c == ' ' || c == '\U{85}' || c == '\U{A0}' || c == '\U{1680}'
    || '\U{2000}' <= c <= '\U{200A}' || c == '\U{2028}' || c == '\U{2029}' || c == '\U{202F}'
    || c == '\U{205F}' || c == '\U{3000}'
  }

  predicate Blank(s: string) {
    forall i :: 0 <= i < |s| ==> IsSpace(s[i])
  }

  /** No white space at either end. */
  predicate Trimmed(s: string) {
    s != "" ==> !IsSpace(s[0]) && !IsSpace(s[|s| - 1])
  }

  function TrimLeft(s: string): string {
    if s != "" && IsSpace(s[0]) then TrimLeft(s[1..]) else s
  }

  function TrimRight(s: string): string {
    if s != "" && IsSpace(s[|s| - 1]) then TrimRight(s[..|s| - 1]) else s
  }

  /** strings.TrimSpace */
  function TrimSpace(s: string): string {
    TrimRight(TrimLeft(s))
  }

  lemma {:induction false} TrimLeftSplits(s: string) returns (left: string)
    ensures Blank(left) && s == left + TrimLeft(s)
    ensures TrimLeft(s) != "" ==> !IsSpace(TrimLeft(s)[0])
  {
    if s != "" && IsSpace(s[0]) {
      left := TrimLeftSplits(s[1..]);
      left := [s[0]] + left;
    } else {
      left := "";
    }
  }

  lemma {:induction false} TrimRightSplits(s: string) returns (right: string)
    ensures Blank(right) && s == TrimRight(s) + right
    ensures TrimRight(s) != "" ==> !IsSpace(TrimRight(s)[|TrimRight(s)| - 1])
  {
    if s != "" && IsSpace(s[|s| - 1]) {
      right := TrimRightSplits(s[..|s| - 1]);
      assert s == s[..|s| - 1] + [s[|s| - 1]];
      right := right + [s[|s| - 1]];
    } else {
      right := "";
    }
  }

  lemma {:induction false} TrimLeftDrops(left: string, s: string)
    requires Blank(left)
    ensures TrimLeft(left + s) == TrimLeft(s)
  {
    if left == "" {
      assert left + s == s;
    } else {
      assert (left + s)[1..] == left[1..] + s;
      TrimLeftDrops(left[1..], s);
    }
  }

  lemma {:induction false} TrimRightDrops(s: string, right: string)
    requires Blank(right)
    ensures TrimRight(s + right) == TrimRight(s)
  {
    if right == "" {
      assert s + right == s;
    } else {
      var n := |right| - 1;
      assert (s + right)[..|s + right| - 1] == s + right[..n];
      TrimRightDrops(s, right[..n]);
    }
  }

  /** TrimSpace cuts white space off both ends and nothing else, and leaves none there. */
  lemma TrimSpaceSplits(s: string) returns (left: string, right: string)
    ensures Blank(left) && Blank(right) && s == left + TrimSpace(s) + right
    ensures Trimmed(TrimSpace(s))
  {
    left := TrimLeftSplits(s);
    right := TrimRightSplits(TrimLeft(s));
    assert TrimLeft(s) == TrimSpace(s) + right;
    if TrimSpace(s) != "" {
      assert TrimLeft(s)[0] == TrimSpace(s)[0];
    }
  }

  /** TrimSpace ignores any white space put around a text. */
  lemma TrimSpaceIgnoresPadding(left: string, s: string, right: string)
    requires Blank(left) && Blank(right)
    ensures TrimSpace(left + s + right) == TrimSpace(s)
  {
    assert left + s + right == left + (s + right);
    TrimLeftDrops(left, s + right);
    var cut := TrimLeftSplits(s);
    if TrimLeft(s) == "" {
      TrimLeftDrops(cut, right);
      assert s == cut;
      var rest := TrimLeftSplits(right);
      BlankTrimsAway(right);
    } else {
      assert s + right == cut + (TrimLeft(s) + right);
      TrimLeftDrops(cut, TrimLeft(s) + right);
      TrimRightDrops(TrimLeft(s), right);
    }
  }

  lemma RightPaddingTrims(s: string, right: string)
    requires Blank(right)
    ensures TrimSpace(s + right) == TrimSpace(s)
  {
    TrimSpaceIgnoresPadding("", s, right);
    assert "" + s + right == s + right;
  }

  lemma {:induction false} BlankTrimsAway(s: string)
    requires Blank(s)
    ensures TrimLeft(s) == ""
  {
    if s != "" {
      BlankTrimsAway(s[1..]);
    }
  }

  /** A key as the cloud expects it. */
  predicate GoodKey(k: string) {
    k != "" && Trimmed(k) && ',' !in k
  }

  /** The non-empty pieces, each trimmed. */
  function Pieces(parts: seq<string>): seq<string> {
    if parts == [] then []
    else (if TrimSpace(parts[0]) == "" then [] else [TrimSpace(parts[0])]) + Pieces(parts[1..])
  }

  /** The keys in a secret value: trim, split at commas, trim each piece, drop the empty ones. */
  function Parse(data: string): seq<string> {
    Pieces(Split(TrimSpace(data), ','))
  }

  lemma {:induction false} PiecesAppend(a: seq<string>, b: seq<string>)
    ensures Pieces(a + b) == Pieces(a) + Pieces(b)
  {
    if a == [] {
      assert a + b == b;
    } else {
      assert (a + b)[1..] == a[1..] + b;
      PiecesAppend(a[1..], b);
    }
  }

  lemma PiecesSnoc(front: seq<string>, part: string)
    ensures Pieces(front + [part]) == Pieces(front) + if TrimSpace(part) == "" then [] else [TrimSpace(part)]
  {
    PiecesAppend(front, [part]);
    assert [part][1..] == [];
  }

  /** The loop of getSSHKeys. */
  method ParseKeys(data: string) returns (keys: seq<string>)
    ensures keys == Parse(data)
  {
    var text := TrimSpace(data);
    if text == "" {
      assert Split(text, ',') == [""] && [""][1..] == [];
      return [];
    }
    keys := [];
    var parts := Split(text, ',');
    for i := 0 to |parts|
      invariant keys == Pieces(parts[..i])
    {
      var trimmed := TrimSpace(parts[i]);
      PiecesSnoc(parts[..i], parts[i]);
      assert parts[..i + 1] == parts[..i] + [parts[i]];
      if trimmed != "" {
        keys := keys + [trimmed];
      }
    }
    assert parts[..|parts|] == parts;
  }

  /** Where the keys are kept: the first of four names present in the secret. */
  const KEY_NAMES := ["ssh-key-ids", "sshKeys", "ssh_keys", "keys"]

  function KeyData(secret: map<string, string>, names: seq<string>): Option<string> {
    if names == [] then None
    else if names[0] in secret then Some(secret[names[0]])
    else KeyData(secret, names[1..])
  }

  lemma FirstName(secret: map<string, string>, name: string, names: seq<string>)
    ensures KeyData(secret, [name] + names) == if name in secret then Some(secret[name]) else KeyData(secret, names)
  {
    assert ([name] + names)[1..] == names;
  }

  /** The order of the names: what a secret holds under an earlier one hides what it holds under a later one. */
  lemma NamesInOrder(secret: map<string, string>)
    ensures KeyData(secret, KEY_NAMES) ==
            if "ssh-key-ids" in secret then Some(secret["ssh-key-ids"])
            else if "sshKeys" in secret then Some(secret["sshKeys"])
            else if "ssh_keys" in secret then Some(secret["ssh_keys"])
            else if "keys" in secret then Some(secret["keys"])
            else None
  {
    assert KEY_NAMES == ["ssh-key-ids"] + (["sshKeys"] + (["ssh_keys"] + (["keys"] + [])));
    FirstName(secret, "ssh-key-ids", ["sshKeys"] + (["ssh_keys"] + (["keys"] + [])));
    FirstName(secret, "sshKeys", ["ssh_keys"] + (["keys"] + []));
    FirstName(secret, "ssh_keys", ["keys"] + []);
    FirstName(secret, "keys", []);
  }

  method FindKeyData(secret: map<string, string>) returns (data: Option<string>)
    ensures data == KeyData(secret, KEY_NAMES)
  {
    data := None;
    for i := 0 to |KEY_NAMES|
      invariant data == None
      invariant KeyData(secret, KEY_NAMES) == KeyData(secret, KEY_NAMES[i..])
    {
      assert KEY_NAMES[i..][1..] == KEY_NAMES[i + 1..];
      if KEY_NAMES[i] in secret {
        return Some(secret[KEY_NAMES[i]]);
      }
    }
  }

  /** Every returned key is non-empty, trimmed and free of commas, whatever the secret holds. */
  lemma {:induction false} PiecesAreGood(parts: seq<string>)
    requires forall i :: 0 <= i < |parts| ==> ',' !in parts[i]
    ensures forall k :: k in Pieces(parts) ==> GoodKey(k)
  {
    if parts != [] {
      PiecesAreGood(parts[1..]);
      var left, right := TrimSpaceSplits(parts[0]);
      assert forall c :: c in TrimSpace(parts[0]) ==> c in parts[0];
    }
  }

  lemma ParsedKeysAreGood(data: string)
    ensures forall k :: k in Parse(data) ==> GoodKey(k)
  {
    PiecesAreGood(Split(TrimSpace(data), ','));
  }

  /** A key with white space around it, as it may stand in a secret. */
  datatype Padded = Padded(left: string, key: string, right: string) {
    function Text(): string { left + key + right }
    ghost predicate Valid() { Blank(left) && Blank(right) && GoodKey(key) }
  }

  function Texts(ps: seq<Padded>): seq<string> {
    seq(|ps|, i requires 0 <= i < |ps| => ps[i].Text())
  }

  function Keys(ps: seq<Padded>): seq<string> {
    seq(|ps|, i requires 0 <= i < |ps| => ps[i].key)
  }

  lemma TrimmedIsFixed(k: string)
    requires Trimmed(k)
    ensures TrimSpace(k) == k
  {}

  lemma {:induction false} PiecesOfPadded(ps: seq<Padded>)
    requires forall i :: 0 <= i < |ps| ==> ps[i].Valid()
    ensures Pieces(Texts(ps)) == Keys(ps)
  {
    if ps != [] {
      PiecesOfPadded(ps[1..]);
      assert Texts(ps)[1..] == Texts(ps[1..]);
      TrimSpaceIgnoresPadding(ps[0].left, ps[0].key, ps[0].right);
      TrimmedIsFixed(ps[0].key);
      assert Keys(ps) == [ps[0].key] + Keys(ps[1..]);
    }
  }

  /** White space in front of a value lands in front of its first piece. */
  lemma {:induction false} SplitPaddedLeft(left: string, s: string)
    requires Blank(left)
    ensures Split(left + s, ',') == [left + Split(s, ',')[0]] + Split(s, ',')[1..]
  {
    if left == "" {
      var first := Split(s, ',')[0];
      assert left + s == s && left + first == first;
      assert Split(s, ',') == [first] + Split(s, ',')[1..];
    } else {
      assert (left + s)[1..] == left[1..] + s;
      SplitPaddedLeft(left[1..], s);
      assert left[0] != ',';
      var first := Split(s, ',')[0];
      assert left + first == [left[0]] + (left[1..] + first);
    }
  }

  /** White space behind a value lands behind its last piece. */
  lemma {:induction false} SplitPaddedRight(s: string, right: string) returns (front: seq<string>, last: string)
    requires Blank(right)
    ensures Split(s, ',') == front + [last]
    ensures Split(s + right, ',') == front + [last + right]
  {
    if s == "" {
      assert s + right == right;
      assert ',' !in right;
      SplitWithoutSeparator(right, ',');
      front, last := [], "";
    } else {
      assert (s + right)[1..] == s[1..] + right;
      front, last := SplitPaddedRight(s[1..], right);
      if s[0] == ',' {
        front := [""] + front;
      } else if front == [] {
        last := [s[0]] + last;
        assert [s[0]] + (last[1..] + right) == last + right;
      } else {
        front := [[s[0]] + front[0]] + front[1..];
      }
    }
  }

  lemma LeftPaddingIsLost(left: string, s: string)
    requires Blank(left)
    ensures Pieces(Split(left + s, ',')) == Pieces(Split(s, ','))
  {
    SplitPaddedLeft(left, s);
    var parts := Split(s, ',');
    TrimSpaceIgnoresPadding(left, parts[0], "");
    assert left + parts[0] + "" == left + parts[0];
  }

  lemma LastPieceTrimmed(front: seq<string>, a: string, b: string)
    requires TrimSpace(a) == TrimSpace(b)
    ensures Pieces(front + [a]) == Pieces(front + [b])
  {
    PiecesAppend(front, [a]);
    PiecesAppend(front, [b]);
    assert [a][1..] == [] && [b][1..] == [];
  }

  lemma RightPaddingIsLost(s: string, right: string)
    requires Blank(right)
    ensures Pieces(Split(s + right, ',')) == Pieces(Split(s, ','))
  {
    var front, last := SplitPaddedRight(s, right);
    RightPaddingTrims(last, right);
    LastPieceTrimmed(front, last + right, last);
  }

  /** The outer TrimSpace of getSSHKeys changes nothing: splitting the raw value gives the same keys. */
  lemma OuterTrimIsRedundant(data: string)
    ensures Parse(data) == Pieces(Split(data, ','))
  {
    var left, right := TrimSpaceSplits(data);
    assert data == left + (TrimSpace(data) + right);
    LeftPaddingIsLost(left, TrimSpace(data) + right);
    RightPaddingIsLost(TrimSpace(data), right);
  }

  /** Parsing undoes joining: any keys, any white space around each of them. */
  lemma ParseInvertsJoin(ps: seq<Padded>)
    requires forall i :: 0 <= i < |ps| ==> ps[i].Valid()
    ensures Parse(Join(Texts(ps), ",")) == Keys(ps)
  {
    OuterTrimIsRedundant(Join(Texts(ps), ","));
    PiecesOfPadded(ps);
    if ps != [] {
      forall i | 0 <= i < |ps|
        ensures ',' !in Texts(ps)[i]
      {
        assert !IsSpace(',');
      }
      SplitJoin(Texts(ps), ',');
    }
  }
}
