/** Go's `path/filepath.Join` on a Unix system, for the two-element call the thumbnail
    handler makes. `Join` cleans its result lexically, as `filepath.Clean` does:
    repeated separators collapse, `.` elements go, and `..` cancels the element before
    it (or is dropped at the root). Nothing here touches a file system. */
module FilePath {
  import opened Strings

  /** One step of `Clean` over the elements seen so far: `stack` holds the result's
      elements, possibly starting with `..` elements that could not be cancelled. */
  function Push(stack: seq<string>, e: string, rooted: bool): seq<string> {
    if e == "" || e == "." then stack
    else if e == ".." then
      if |stack| > 0 && stack[|stack| - 1] != ".." then stack[..|stack| - 1]
      else if rooted then stack
      else stack + [".."]
    else stack + [e]
  }

  /** The elements that survive cleaning, taken left to right. */
  function Resolve(elems: seq<string>, rooted: bool): (stack: seq<string>)
    requires forall k :: 0 <= k < |elems| ==> '/' !in elems[k]
    ensures forall k :: 0 <= k < |stack| ==> stack[k] != "" && stack[k] != "." && '/' !in stack[k]
    decreases |elems|
  {
    if elems == [] then []
    else Push(Resolve(elems[..|elems| - 1], rooted), elems[|elems| - 1], rooted)
  }

  /** The cleaned path spelled from its surviving elements; `.` when nothing is left. */
  function Render(rooted: bool, stack: seq<string>): string {
    var r := (if rooted then "/" else "") + (if stack == [] then "" else Join(stack, '/'));
    if r == "" then "." else r
  }

  /** `filepath.Clean(p)`. */
  function Clean(p: string): string {
    if p == "" then "."
    else
      var rooted := p[0] == '/';
      Render(rooted, Resolve(Split(p, '/'), rooted))
  }

  /** `filepath.Join(dir, name)`: empty arguments are skipped, the rest joined with `/`
      and cleaned. */
  function JoinPath(dir: string, name: string): string {
    if dir != "" then Clean(dir + "/" + name)
    else if name != "" then Clean(name)
    else ""
  }

  /** A single path element that cleaning keeps as it is. */
  predicate IsPlainName(name: string) {
    name != "" && name != "." && name != ".." && '/' !in name
  }

  /** The path of `name` inside the (already clean) directory `dir`. */
  function Within(dir: string, name: string): string {
    if dir == "." then name else if dir == "/" then "/" + name else dir + "/" + name
  }

  /** Splitting at the first separator. */
  lemma SplitAtFirst(s: string, sep: char, i: nat)
    requires i < |s| && s[i] == sep && sep !in s[..i]
    ensures Split(s, sep) == [s[..i]] + Split(s[i + 1..], sep)
  {
    IndexOfIs(s, sep, i);
  }

  lemma {:induction false} SplitAppend(a: string, b: string, sep: char)
    ensures Split(a + [sep] + b, sep) == Split(a, sep) + Split(b, sep)
    decreases |a|
  {
    var s := a + [sep] + b;
    if sep !in a {
      assert s[..|a|] == a;
      assert s[|a| + 1..] == b;
      SplitAtFirst(s, sep, |a|);
    } else {
      var i := IndexOf(a, sep);
      calc {
        Split(s, sep);
        { SplitAppendStep(a, b, sep, i); }
        [a[..i]] + Split(a[i + 1..] + [sep] + b, sep);
        { SplitAppend(a[i + 1..], b, sep); }
        [a[..i]] + (Split(a[i + 1..], sep) + Split(b, sep));
        ([a[..i]] + Split(a[i + 1..], sep)) + Split(b, sep);
        { SplitAppendStep(a, b, sep, i); }
        Split(a, sep) + Split(b, sep);
      }
    }
  }

  lemma SplitAppendStep(a: string, b: string, sep: char, i: nat)
    requires i < |a| && a[i] == sep && sep !in a[..i]
    ensures Split(a + [sep] + b, sep) == [a[..i]] + Split(a[i + 1..] + [sep] + b, sep)
    ensures Split(a, sep) == [a[..i]] + Split(a[i + 1..], sep)
  {
    var s := a + [sep] + b;
    assert s[..i] == a[..i];
    assert s[i + 1..] == a[i + 1..] + [sep] + b;
    SplitAtFirst(s, sep, i);
    SplitAtFirst(a, sep, i);
  }

  lemma JoinSnoc(fields: seq<string>, last: string, sep: char)
    requires |fields| >= 1
    ensures Join(fields + [last], sep) == Join(fields, sep) + [sep] + last
    decreases |fields|
  {
    if |fields| > 1 {
      assert (fields + [last])[1..] == fields[1..] + [last];
      JoinSnoc(fields[1..], last, sep);
    }
  }

  lemma JoinedElements(stack: seq<string>)
    requires |stack| >= 1
    requires forall k :: 0 <= k < |stack| ==> stack[k] != "" && stack[k] != "." && '/' !in stack[k]
    ensures Join(stack, '/') != "" && Join(stack, '/') != "." && Join(stack, '/') != "/"
  {
    if |stack| > 1 {
      var j := Join(stack, '/');
      assert j == stack[0] + "/" + Join(stack[1..], '/');
      assert |j| >= 2;
    }
  }

  lemma RenderSnoc(rooted: bool, stack: seq<string>, name: string)
    requires IsPlainName(name)
    requires forall k :: 0 <= k < |stack| ==> stack[k] != "" && stack[k] != "." && '/' !in stack[k]
    ensures Render(rooted, stack + [name]) == Within(Render(rooted, stack), name)
  {
    if stack == [] {
      assert stack + [name] == [name];
      RenderSingle(rooted, name);
    } else {
      RenderLonger(rooted, stack, name);
    }
  }

  lemma RenderSingle(rooted: bool, name: string)
    requires IsPlainName(name)
    ensures Render(rooted, [name]) == Within(Render(rooted, []), name)
  {
    assert Join([name], '/') == name;
  }

  lemma RenderLonger(rooted: bool, stack: seq<string>, name: string)
    requires |stack| >= 1
    requires forall k :: 0 <= k < |stack| ==> stack[k] != "" && stack[k] != "." && '/' !in stack[k]
    ensures Render(rooted, stack + [name]) == Within(Render(rooted, stack), name)
  {
    var prefix := if rooted then "/" else "";
    JoinSnoc(stack, name, '/');
    JoinedElements(stack);
    var j := Join(stack, '/');
    assert |prefix + j| >= 1 && prefix + j != "." && prefix + j != "/";
    assert Render(rooted, stack) == prefix + j;
    assert prefix + (j + "/" + name) == prefix + j + "/" + name;
  }

  /** Joining a directory with a plain name yields the cleaned directory with the name
      appended: the asset file lands directly inside the assets directory, whatever
      spelling (`./assets`, `assets/`, `/srv//assets`) the directory is given in. */
  lemma JoinPlainName(dir: string, name: string)
    requires IsPlainName(name)
    ensures JoinPath(dir, name) == Within(Clean(dir), name)
  {
    if dir == "" {
      assert Split(name, '/') == [name];
      assert Resolve([name], false) == [] + [name];
      RenderSnoc(false, [], name);
    } else {
      var p := dir + "/" + name;
      var rooted := dir[0] == '/';
      var elems := Split(dir, '/');
      assert p[0] == dir[0];
      assert Split(p, '/') == elems + [name] by {
        SplitAppend(dir, name, '/');
        assert Split(name, '/') == [name];
      }
      assert (elems + [name])[..|elems|] == elems;
      var stack := Resolve(elems, rooted);
      assert Resolve(elems + [name], rooted) == stack + [name];
      RenderSnoc(rooted, stack, name);
    }
  }
}
