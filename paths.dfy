/**
 * Go's `path/filepath.Join` and `filepath.Clean` on a Unix host, where '/'
 * is the only separator. Clean is described by its documented rules:
 * repeated separators collapse, `.` elements vanish, an inner `..` removes
 * the real element before it, a `..` at the start of a rooted path is
 * dropped, and the empty result is ".".
 */
module Paths {

  const Separator: char := '/'

  /** A path element `Clean` keeps as it is: non-empty, not `.`, and free of separators. */
  predicate IsSegment(e: string) {
    e != "" && e != "." && Separator !in e
  }

  /** A single path component: a segment that is not `..` either. */
  predicate IsPlainComponent(name: string) {
    IsSegment(name) && name != ".."
  }

  /** The pieces of `s` between separators, empty pieces included. */
  function Split(s: string): (parts: seq<string>)
    ensures |parts| >= 1
    ensures forall k :: 0 <= k < |parts| ==> Separator !in parts[k]
  {
    if s == [] then [[]]
    else
      var rest := Split(s[1..]);
      if s[0] == Separator then [[]] + rest
      else [[s[0]] + rest[0]] + rest[1..]
  }

  /** The pieces joined back with one separator between neighbours. */
  function JoinWith(parts: seq<string>): string {
    if parts == [] then []
    else if |parts| == 1 then parts[0]
    else parts[0] + [Separator] + JoinWith(parts[1..])
  }

  /** Joining the pieces back gives the path again. */
  lemma {:induction false} JoinSplit(s: string)
    ensures JoinWith(Split(s)) == s
  {
    if s != [] {
      var rest := Split(s[1..]);
      JoinSplit(s[1..]);
      if s[0] != Separator {
        if |rest| > 1 {
          assert rest[1..] == (rest[1..])[..];
          assert JoinWith(rest) == rest[0] + [Separator] + JoinWith(rest[1..]);
          assert ([[s[0]] + rest[0]] + rest[1..])[1..] == rest[1..];
        }
      } else {
        assert ([[]] + rest)[1..] == rest;
      }
    }
  }

  lemma {:induction false} SplitSegmentFree(name: string)
    requires Separator !in name
    ensures Split(name) == [name]
  {
    if name != [] {
      SplitSegmentFree(name[1..]);
      assert [name[0]] + name[1..] == name;
    }
  }

  /** A separator followed by a separator-free name adds exactly one piece. */
  lemma {:induction false} SplitAppend(dir: string, name: string)
    requires Separator !in name
    ensures Split(dir + [Separator] + name) == Split(dir) + [name]
  {
    if dir == [] {
      assert dir + [Separator] + name == [Separator] + name;
      assert ([Separator] + name)[1..] == name;
      SplitSegmentFree(name);
    } else {
      var tail := dir[1..] + [Separator] + name;
      assert (dir + [Separator] + name)[1..] == tail;
      SplitAppend(dir[1..], name);
      var rest := Split(dir[1..]);
      assert Split(tail) == rest + [name];
      if dir[0] != Separator {
        assert (rest + [name])[0] == rest[0];
        assert (rest + [name])[1..] == rest[1..] + [name];
      }
    }
  }

  /** The non-empty pieces, in order. */
  function NonEmpty(parts: seq<string>): (elems: seq<string>)
    ensures forall k :: 0 <= k < |elems| ==> elems[k] != [] && elems[k] in parts
  {
    if parts == [] then []
    else
      var last := parts[|parts| - 1];
      NonEmpty(parts[..|parts| - 1]) + (if last == [] then [] else [last])
  }

  /** The path's elements: the pieces between separators that are not empty. */
  function Elements(p: string): (elems: seq<string>)
    ensures forall k :: 0 <= k < |elems| ==> elems[k] != [] && Separator !in elems[k]
  {
    NonEmpty(Split(p))
  }

  predicate IsRooted(p: string) {
    |p| > 0 && p[0] == Separator
  }

  /**
   * Clean's treatment of `.` and `..`, element by element from the left:
   * `.` vanishes; `..` removes the real element before it, is dropped at
   * the root of a rooted path, and is otherwise kept.
   */
  function Resolve(rooted: bool, elems: seq<string>): (out: seq<string>)
    requires forall k :: 0 <= k < |elems| ==> elems[k] != [] && Separator !in elems[k]
    ensures forall k :: 0 <= k < |out| ==> IsSegment(out[k])
    ensures rooted ==> forall k :: 0 <= k < |out| ==> out[k] != ".."
  {
    if elems == [] then []
    else
      var prefix := Resolve(rooted, elems[..|elems| - 1]);
      var e := elems[|elems| - 1];
      if e == "." then prefix
      else if e == ".." then
        if prefix != [] && prefix[|prefix| - 1] != ".." then prefix[..|prefix| - 1]
        else if rooted then prefix
        else prefix + [".."]
      else prefix + [e]
  }

  /** The elements of the cleaned path. */
  function CleanElements(p: string): seq<string> {
    Resolve(IsRooted(p), Elements(p))
  }

  /** A path from its rootedness and its elements; "." when that is empty. */
  function Render(rooted: bool, elems: seq<string>): string {
    var body := (if rooted then [Separator] else []) + JoinWith(elems);
    if body == [] then "." else body
  }

  /** `filepath.Clean` on Unix. */
  function Clean(p: string): string {
    Render(IsRooted(p), CleanElements(p))
  }

  /** `filepath.Join(dir, name)` on Unix: the elements after the first non-empty one, joined and cleaned. */
  function Join(dir: string, name: string): string {
    if dir == [] then (if name == [] then [] else Clean(name))
    else Clean(dir + [Separator] + name)
  }

  /** `name` as the one child of the cleaned directory `cleanDir`. */
  function Child(cleanDir: string, name: string): string {
    if cleanDir == "." then name
    else if cleanDir == [Separator] then [Separator] + name
    else cleanDir + [Separator] + name
  }

  lemma {:induction false} JoinWithAppend(parts: seq<string>, last: string)
    requires parts != []
    ensures JoinWith(parts + [last]) == JoinWith(parts) + [Separator] + last
  {
    if |parts| > 1 {
      assert (parts + [last])[1..] == parts[1..] + [last];
      JoinWithAppend(parts[1..], last);
    }
  }

  /** Appending a plain component to a path appends it to the path's elements. */
  lemma ElementsAppend(dir: string, name: string)
    requires IsPlainComponent(name)
    ensures Elements(dir + [Separator] + name) == Elements(dir) + [name]
  {
    SplitAppend(dir, name);
    var parts := Split(dir);
    assert (parts + [name])[..|parts|] == parts;
  }

  lemma ResolveAppend(rooted: bool, elems: seq<string>, name: string)
    requires forall k :: 0 <= k < |elems| ==> elems[k] != [] && Separator !in elems[k]
    requires IsPlainComponent(name)
    ensures Resolve(rooted, elems + [name]) == Resolve(rooted, elems) + [name]
  {
    assert (elems + [name])[..|elems|] == elems;
  }

  /** A plain component on its own is one element, and the empty path has none. */
  lemma ElementsOfComponent(name: string)
    requires IsPlainComponent(name)
    ensures Elements(name) == [name]
    ensures Elements([]) == []
  {
    SplitSegmentFree(name);
    assert Split(name) == [] + [name];
    assert NonEmpty([] + [name]) == NonEmpty([]) + [name];
    assert Split([]) == [] + [[]];
    assert NonEmpty([] + [[]]) == NonEmpty([]);
  }

  /**
   * Joining a plain component onto a directory yields the directory's
   * cleaned elements followed by exactly that component.
   */
  lemma {:induction false} JoinPlainComponent(dir: string, name: string)
    requires IsPlainComponent(name)
    ensures Join(dir, name) == Render(IsRooted(dir), CleanElements(dir) + [name])
  {
    if dir == [] {
      ElementsOfComponent(name);
      ResolveAppend(false, [], name);
      assert [] + [name] == [name];
    } else {
      var joined := dir + [Separator] + name;
      assert IsRooted(joined) == IsRooted(dir);
      ElementsAppend(dir, name);
      ResolveAppend(IsRooted(dir), Elements(dir), name);
    }
  }

  /** Render gives "." exactly for no elements unrooted, and "/" exactly for no elements rooted. */
  lemma RenderShape(rooted: bool, elems: seq<string>)
    requires forall k :: 0 <= k < |elems| ==> IsSegment(elems[k])
    ensures Render(rooted, elems) == "." <==> !rooted && elems == []
    ensures Render(rooted, elems) == [Separator] <==> rooted && elems == []
  {
  }

  /**
   * The joined path is a direct child of the cleaned directory, whatever
   * the directory is: the plain component is appended after one separator
   * (or after none, when the directory cleans to "." or "/").
   */
  lemma {:induction false} JoinIsChild(dir: string, name: string)
    requires IsPlainComponent(name)
    ensures Join(dir, name) == Child(Clean(dir), name)
  {
    JoinPlainComponent(dir, name);
    var rooted := IsRooted(dir);
    var elems := CleanElements(dir);
    RenderShape(rooted, elems);
    if elems == [] {
      assert elems + [name] == [name];
    } else {
      JoinWithAppend(elems, name);
    }
  }
}
