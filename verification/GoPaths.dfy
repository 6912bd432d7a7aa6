/** The parts of Go's `strings`, `path` and `path/filepath` packages that build object keys, on sequences of
    characters. */
module GoPaths {

  predicate SlashFree(s: string) {
    forall i | 0 <= i < |s| :: s[i] != '/'
  }

  // ---------------------------------------------------------------- strings.TrimSpace, strings.ToLower

  /** unicode.IsSpace */
  predicate IsSpace(c: char) {
    var n := c as int;
    || 9 <= n <= 13 || n == 0x20 || n == 0x85 || n == 0xA0 || n == 0x1680 || 0x2000 <= n <= 0x200A
    || n == 0x2028 || n == 0x2029 || n == 0x202F || n == 0x205F || n == 0x3000
  }

  function TrimLeft(s: string): string {
    if s != "" && IsSpace(s[0]) then TrimLeft(s[1..]) else s
  }

  function TrimRight(s: string): string {
    if s != "" && IsSpace(s[|s| - 1]) then TrimRight(s[..|s| - 1]) else s
  }

  function TrimSpace(s: string): string {
    TrimRight(TrimLeft(s))
  }

  /** strings.ToLower on the letters A-Z. */
  function LowerChar(c: char): char {
    if 'A' <= c <= 'Z' then (c as int + 32) as char else c
  }

  function Lower(s: string): (r: string)
    ensures |r| == |s|
  {
    if s == "" then "" else [LowerChar(s[0])] + Lower(s[1..])
  }

  predicate AllSpace(s: string) {
    forall i | 0 <= i < |s| :: IsSpace(s[i])
  }

  lemma {:induction false} TrimRightExact(s: string)
    ensures TrimRight(s) <= s && AllSpace(s[|TrimRight(s)|..])
    ensures TrimRight(s) != "" ==> !IsSpace(TrimRight(s)[|TrimRight(s)| - 1])
  {
    hide IsSpace;
    if s != "" && IsSpace(s[|s| - 1]) {
      TrimRightExact(s[..|s| - 1]);
      var n := |TrimRight(s)|;
      forall i | 0 <= i < |s| - n ensures IsSpace(s[n..][i]) {
        assert i < |s| - n - 1 ==> s[n..][i] == s[..|s| - 1][n..][i];
      }
    }
  }

  lemma {:induction false} TrimLeftExact(s: string)
    ensures |TrimLeft(s)| <= |s| && s[|s| - |TrimLeft(s)|..] == TrimLeft(s) && AllSpace(s[..|s| - |TrimLeft(s)|])
    ensures TrimLeft(s) != "" ==> !IsSpace(TrimLeft(s)[0])
  {
    hide IsSpace;
    if s != "" && IsSpace(s[0]) {
      TrimLeftExact(s[1..]);
      var n := |s| - |TrimLeft(s)|;
      assert s[n..] == s[1..][n - 1..];
      forall i | 0 <= i < n ensures IsSpace(s[..n][i]) {
        assert i > 0 ==> s[..n][i] == s[1..][..n - 1][i - 1];
      }
    }
  }

  /** Trimming takes space off both ends, all of it, and nothing else. */
  lemma TrimSpaceExact(s: string) returns (i: nat, j: nat)
    ensures i <= j <= |s| && TrimSpace(s) == s[i..j] && AllSpace(s[..i]) && AllSpace(s[j..])
    ensures i < j ==> !IsSpace(s[i]) && !IsSpace(s[j - 1])
  {
    TrimLeftExact(s);
    var l := TrimLeft(s);
    TrimRightExact(l);
    i := |s| - |l|;
    j := i + |TrimRight(l)|;
    assert s[j..] == l[|TrimRight(l)|..];
  }

  /** Nothing is left exactly if there was nothing but space. */
  lemma TrimmedAwayIff(s: string)
    ensures TrimSpace(s) == "" <==> AllSpace(s)
  {
    var i, j := TrimSpaceExact(s);
    if i == j {
      assert s == s[..i] + s[j..];
    } else {
      assert !IsSpace(s[i]);
    }
  }

  const UPPER_CASE: string := "ABCDEFGHIJKLMNOPQRSTUVWXYZ"
  const LOWER_CASE: string := "abcdefghijklmnopqrstuvwxyz"

  /** Lower-casing maps the letters of one alphabet to those of the other and leaves every other character alone. */
  lemma LowerCharExact(c: char)
    ensures forall i | 0 <= i < 26 :: LowerChar(UPPER_CASE[i]) == LOWER_CASE[i]
    ensures c !in UPPER_CASE ==> LowerChar(c) == c
  {
    if 'A' <= c <= 'Z' {
      assert UPPER_CASE[c as int - 'A' as int] == c;
    }
  }

  lemma {:induction false} LowerAt(s: string, i: nat)
    requires i < |s|
    ensures Lower(s)[i] == LowerChar(s[i])
  {
    if i > 0 {
      LowerAt(s[1..], i - 1);
    }
  }

  // ---------------------------------------------------------------- splitting and joining at slashes

  function Split(s: string): (parts: seq<string>)
    ensures |parts| >= 1
  {
    if s == "" then [""]
    else if s[0] == '/' then [""] + Split(s[1..])
    else var rest := Split(s[1..]); [[s[0]] + rest[0]] + rest[1..]
  }

  function Join(parts: seq<string>): string {
    if parts == [] then "" else if |parts| == 1 then parts[0] else parts[0] + "/" + Join(parts[1..])
  }

  predicate AllSlashFree(parts: seq<string>) {
    forall i | 0 <= i < |parts| :: SlashFree(parts[i])
  }

  lemma {:induction false} SplitPartsSlashFree(s: string)
    ensures AllSlashFree(Split(s))
  {
    if s != "" {
      SplitPartsSlashFree(s[1..]);
      var rest := Split(s[1..]);
      if s[0] != '/' {
        assert Split(s)[1..] == rest[1..];
        assert SlashFree(rest[0]);
      }
    }
  }

  lemma {:induction false} SplitPlain(s: string)
    requires SlashFree(s)
    ensures Split(s) == [s]
  {
    if s != "" {
      assert s[0] != '/';
      SplitPlain(s[1..]);
      assert [s[0]] + s[1..] == s;
    }
  }

  lemma {:induction false} SplitFirst(a: string, rest: string)
    requires SlashFree(a)
    ensures Split(a + "/" + rest) == [a] + Split(rest)
  {
    var s := a + "/" + rest;
    if a == "" {
      assert s[1..] == rest;
    } else {
      assert s[0] == a[0] != '/';
      assert s[1..] == a[1..] + "/" + rest;
      SplitFirst(a[1..], rest);
      assert [a[0]] + a[1..] == a;
      assert ([a[1..]] + Split(rest))[1..] == Split(rest);
    }
  }

  lemma {:induction false} SplitJoin(parts: seq<string>)
    requires parts != [] && AllSlashFree(parts)
    ensures Split(Join(parts)) == parts
  {
    if |parts| == 1 {
      SplitPlain(parts[0]);
    } else {
      SplitJoin(parts[1..]);
      SplitFirst(parts[0], Join(parts[1..]));
    }
  }

  // ---------------------------------------------------------------- path.Clean, path.Join

  /** The elements left of `parts`, read from the left onto `stack`: empty and "." elements vanish, ".." removes
      the element before it, and is kept only at the start of a path that is not rooted. */
  function Resolve(rooted: bool, parts: seq<string>, stack: seq<string>): seq<string>
    decreases |parts|
  {
    if parts == [] then stack
    else if parts[0] == "" || parts[0] == "." then Resolve(rooted, parts[1..], stack)
    else if parts[0] == ".." then
      if stack != [] && stack[|stack| - 1] != ".." then Resolve(rooted, parts[1..], stack[..|stack| - 1])
      else if rooted then Resolve(rooted, parts[1..], stack)
      else Resolve(rooted, parts[1..], stack + [".."])
    else Resolve(rooted, parts[1..], stack + [parts[0]])
  }

  function Clean(p: string): string {
    var rooted := p != "" && p[0] == '/';
    var body := Join(Resolve(rooted, Split(p), []));
    if rooted then "/" + body else if body == "" then "." else body
  }

  function NonEmpty(elems: seq<string>): seq<string> {
    if elems == [] then [] else (if elems[0] == "" then [] else [elems[0]]) + NonEmpty(elems[1..])
  }

  function PathJoin(elems: seq<string>): string {
    var used := NonEmpty(elems);
    if used == [] then "" else Clean(Join(used))
  }

  /** An element that path.Clean keeps as it is. */
  predicate Plain(p: string) {
    p != "" && p != "." && p != ".." && SlashFree(p)
  }

  predicate AllPlain(parts: seq<string>) {
    forall i | 0 <= i < |parts| :: Plain(parts[i])
  }

  /** Below the root, what is left are plain elements. */
  lemma {:induction false} ResolvedArePlain(parts: seq<string>, stack: seq<string>)
    requires AllSlashFree(parts) && AllPlain(stack)
    ensures AllPlain(Resolve(true, parts, stack))
    decreases |parts|
  {
    if parts != [] {
      var stack' := if parts[0] == "" || parts[0] == "." then stack
                    else if parts[0] == ".." then (if stack != [] then stack[..|stack| - 1] else stack)
                    else stack + [parts[0]];
      assert AllPlain(stack') && SlashFree(parts[0]);
      if parts[0] == ".." && stack != [] {
        assert Plain(stack[|stack| - 1]);
      }
      ResolvedArePlain(parts[1..], stack');
    }
  }

  lemma {:induction false} PlainResolve(rooted: bool, parts: seq<string>, stack: seq<string>)
    requires AllPlain(parts)
    ensures Resolve(rooted, parts, stack) == stack + parts
    decreases |parts|
  {
    if parts != [] {
      assert Plain(parts[0]);
      PlainResolve(rooted, parts[1..], stack + [parts[0]]);
      assert stack + [parts[0]] + parts[1..] == stack + parts;
    } else {
      assert stack + parts == stack;
    }
  }

  /** path.Clean("/" + v) without its leading slash. */
  function CleanBelowRoot(v: string): string {
    Join(Resolve(true, Split(v), []))
  }

  lemma CleanRooted(v: string)
    ensures Clean("/" + v) == "/" + CleanBelowRoot(v)
  {
  }

  lemma SplitStep(s: string)
    requires s != ""
    ensures s[0] == '/' ==> Split(s) == [""] + Split(s[1..])
    ensures s[0] != '/' ==> Split(s) == [[s[0]] + Split(s[1..])[0]] + Split(s[1..])[1..]
  {
  }

  lemma {:induction false} SplitConcat(a: string, b: string)
    ensures Split(a + "/" + b) == Split(a) + Split(b)
  {
    if a == "" {
      SplitFirst("", b);
    } else {
      var s := a + "/" + b;
      SplitStep(s);
      SplitStep(a);
      SplitConcat(a[1..], b);
      hide Split;
      assert s[0] == a[0] && s[1..] == a[1..] + "/" + b;
      HeadOfConcat(Split(a[1..]), Split(b), a[0]);
    }
  }

  lemma HeadOfConcat(r: seq<string>, q: seq<string>, c: char)
    requires r != []
    ensures [""] + (r + q) == ([""] + r) + q
    ensures [[c] + (r + q)[0]] + (r + q)[1..] == ([[c] + r[0]] + r[1..]) + q
  {
  }

  lemma {:induction false} ResolveConcat(rooted: bool, first: seq<string>, second: seq<string>, stack: seq<string>)
    ensures Resolve(rooted, first + second, stack) == Resolve(rooted, second, Resolve(rooted, first, stack))
    decreases |first|
  {
    if first == [] {
      assert first + second == second;
    } else {
      assert (first + second)[0] == first[0] && (first + second)[1..] == first[1..] + second;
      var stack' := if first[0] == "" || first[0] == "." then stack
                    else if first[0] != ".." then stack + [first[0]]
                    else if stack != [] && stack[|stack| - 1] != ".." then stack[..|stack| - 1]
                    else if rooted then stack else stack + [".."];
      ResolveConcat(rooted, first[1..], second, stack');
    }
  }

  /** The rules of path.Clean below the root: elements that are empty or "." vanish, ".." removes the element before it,
      and at the root vanishes itself. */
  lemma CleanRules(a: string, x: string, b: string)
    requires Plain(x)
    ensures CleanBelowRoot(a + "/" + x + "/../" + b) == CleanBelowRoot(a + "/" + b)
    ensures CleanBelowRoot(a + "//" + b) == CleanBelowRoot(a + "/" + b)
    ensures CleanBelowRoot(a + "/./" + b) == CleanBelowRoot(a + "/" + b)
    ensures CleanBelowRoot("../" + b) == CleanBelowRoot(b)
  {
    forall stack | AllPlain(stack) ensures Resolve(true, [x, ".."], stack) == stack {
      ThereAndBack(x, stack);
    }
    Dropped(a, [x, ".."], b);
    Dropped(a, [""], b);
    Dropped(a, ["."], b);
    assert Join([x, ".."]) == x + "/..";
    assert a + "/" + Join([x, ".."]) + "/" + b == a + "/" + x + "/../" + b;
    assert a + "/" + "" + "/" + b == a + "//" + b && a + "/" + "." + "/" + b == a + "/./" + b;
    SplitFirst("..", b);
    assert ".." + "/" + b == "../" + b;
  }

  lemma ThereAndBack(x: string, stack: seq<string>)
    requires Plain(x)
    ensures Resolve(true, [x, ".."], stack) == stack
  {
    assert [x, ".."][1..] == [".."] && [".."][1..] == [];
    assert Resolve(true, [".."], stack + [x]) == Resolve(true, [], (stack + [x])[..|stack|]);
    assert (stack + [x])[..|stack|] == stack;
  }

  /** Elements that leave every stack as it was can be left out. */
  lemma Dropped(a: string, mid: seq<string>, b: string)
    requires mid != [] && AllSlashFree(mid) && forall stack :: AllPlain(stack) ==> Resolve(true, mid, stack) == stack
    ensures CleanBelowRoot(a + "/" + Join(mid) + "/" + b) == CleanBelowRoot(a + "/" + b)
  {
    var rest := Join(mid) + "/" + b;
    assert a + "/" + Join(mid) + "/" + b == a + "/" + rest;
    SplitConcat(a, rest);
    SplitConcat(a, b);
    SplitConcat(Join(mid), b);
    SplitJoin(mid);
    SplitPartsSlashFree(a);
    ResolvedArePlain(Split(a), []);
    ResolveConcat(true, Split(a), mid + Split(b), []);
    ResolveConcat(true, mid, Split(b), Resolve(true, Split(a), []));
    ResolveConcat(true, Split(a), Split(b), []);
  }

  lemma CleanPlain(parts: seq<string>)
    requires parts != [] && AllPlain(parts)
    ensures Clean(Join(parts)) == Join(parts) && CleanBelowRoot(Join(parts)) == Join(parts)
  {
    SplitJoin(parts);
    PlainResolve(true, parts, []);
    PlainResolve(false, parts, []);
    assert [] + parts == parts;
    assert Plain(parts[0]);
    assert Join(parts)[0] == parts[0][0] != '/';
  }

  lemma {:induction false} PlainNonEmpty(parts: seq<string>)
    requires AllPlain(parts)
    ensures NonEmpty(parts) == parts
  {
    if parts != [] {
      assert Plain(parts[0]);
      PlainNonEmpty(parts[1..]);
      assert [parts[0]] + parts[1..] == parts;
    }
  }

  /** Joining plain elements puts slashes between them and nothing else. */
  lemma PathJoinPlain(parts: seq<string>)
    requires parts != [] && AllPlain(parts)
    ensures PathJoin(parts) == Join(parts)
  {
    PlainNonEmpty(parts);
    CleanPlain(parts);
  }

  // ---------------------------------------------------------------- filepath.Ext

  /** The suffix from the last dot of the last path element, or nothing. */
  function Ext(name: string): string {
    if name == "" || name[|name| - 1] == '/' then ""
    else if name[|name| - 1] == '.' then "."
    else var e := Ext(name[..|name| - 1]); if e == "" then "" else e + [name[|name| - 1]]
  }

  /** No dot and no slash. */
  predicate Undotted(s: string) {
    SlashFree(s) && forall i | 0 <= i < |s| :: s[i] != '.'
  }

  /** The extension of a name that ends in a dot and characters other than dots and slashes is that ending. */
  lemma {:induction false} ExtOfEnding(stem: string, rest: string)
    requires Undotted(rest)
    ensures Ext(stem + "." + rest) == "." + rest
    decreases |rest|
  {
    var name := stem + "." + rest;
    if rest != "" {
      var r := rest[..|rest| - 1];
      assert name[..|name| - 1] == stem + "." + r && name[|name| - 1] == rest[|rest| - 1];
      ExtOfEnding(stem, r);
      assert "." + r + [rest[|rest| - 1]] == "." + rest;
    }
  }

  /** There is no other extension: it is empty, or a dot and the characters after the last dot. */
  lemma {:induction false} ExtExact(name: string)
    ensures Ext(name) != "" ==>
              && |Ext(name)| <= |name| && name[|name| - |Ext(name)|..] == Ext(name)
              && Ext(name)[0] == '.' && Undotted(Ext(name)[1..])
  {
    if name != "" && name[|name| - 1] != '/' && name[|name| - 1] != '.' {
      ExtExact(name[..|name| - 1]);
      var e := Ext(name[..|name| - 1]);
      if e != "" {
        assert Ext(name)[1..] == e[1..] + [name[|name| - 1]];
      }
    }
  }

  lemma {:induction false} ExtSlashFree(name: string)
    ensures SlashFree(Ext(name))
  {
    if name != "" {
      ExtSlashFree(name[..|name| - 1]);
    }
  }

  lemma {:induction false} LowerSlashFree(s: string)
    requires SlashFree(s)
    ensures SlashFree(Lower(s))
  {
    if s != "" {
      LowerSlashFree(s[1..]);
    }
  }
}
