/** Lexical path cleaning (`filepath.Clean` on Unix), as the path rules apply it before matching. */
module CleanPath {
  import opened Text

  function CleanParts(parts: seq<string>, rooted: bool, stack: seq<string>): seq<string> {
    if parts == [] then stack
    else
      var p, rest := parts[0], parts[1..];
      if p == "" || p == "." then CleanParts(rest, rooted, stack)
      else if p != ".." then CleanParts(rest, rooted, stack + [p])
      else if stack != [] && stack[|stack| - 1] != ".." then CleanParts(rest, rooted, stack[..|stack| - 1])
      else if rooted then CleanParts(rest, rooted, stack)
      else CleanParts(rest, rooted, stack + [p])
  }

  function Clean(path: string): string {
    if path == "" then "."
    else
      var rooted := path[0] == '/';
      var parts := CleanParts(Split(path, '/'), rooted, []);
      if rooted then "/" + Join(parts, "/") else if parts == [] then "." else Join(parts, "/")
  }

  /** Cleaned parts: no empty or `.` part, and `..` only at the head of a relative path. */
  predicate CleanStack(parts: seq<string>, rooted: bool) {
    && (forall p :: p in parts ==> p != "" && p != "." && '/' !in p)
    && (forall i :: 0 <= i < |parts| && parts[i] == ".." ==> !rooted && forall j :: 0 <= j < i ==> parts[j] == "..")
  }

  lemma {:induction false} CleanPartsClean(parts: seq<string>, rooted: bool, stack: seq<string>)
    requires forall p :: p in parts ==> '/' !in p
    requires CleanStack(stack, rooted)
    ensures CleanStack(CleanParts(parts, rooted, stack), rooted)
  {
    if parts != [] {
      var p, rest := parts[0], parts[1..];
      assert p in parts;
      if p == "" || p == "." {
        CleanPartsClean(rest, rooted, stack);
      } else if p != ".." {
        CleanPartsClean(rest, rooted, stack + [p]);
      } else if stack != [] && stack[|stack| - 1] != ".." {
        assert forall q :: q in stack[..|stack| - 1] ==> q in stack;
        CleanPartsClean(rest, rooted, stack[..|stack| - 1]);
      } else if rooted {
        CleanPartsClean(rest, rooted, stack);
      } else {
        CleanPartsClean(rest, rooted, stack + [p]);
      }
    }
  }

  lemma {:induction false} CleanPartsKeep(stack: seq<string>, parts: seq<string>, rooted: bool)
    requires CleanStack(stack + parts, rooted)
    ensures CleanParts(parts, rooted, stack) == stack + parts
    decreases |parts|
  {
    if parts == [] {
      assert stack + parts == stack;
    } else {
      var p, rest := parts[0], parts[1..];
      var all := stack + parts;
      assert all[|stack|] == p && p in all;
      assert p == ".." && stack != [] ==> all[|stack| - 1] == "..";
      assert (stack + [p]) + rest == all;
      CleanPartsKeep(stack + [p], rest, rooted);
    }
  }

  /** A cleaned path is clean: the location a rule is matched against is canonical. */
  lemma CleanIsCanonical(path: string)
    ensures Clean(Clean(path)) == Clean(path)
  {
    if path != "" {
      var rooted := path[0] == '/';
      SplitPartsFree(path, '/');
      var parts := CleanParts(Split(path, '/'), rooted, []);
      CleanPartsClean(Split(path, '/'), rooted, []);
      assert [] + parts == parts;
      CleanPartsKeep([], parts, rooted);
      var joined := Join(parts, "/");
      if parts != [] {
        SplitJoin(parts, '/');
        assert parts[0] in parts;
        assert joined[0] == parts[0][0];
        assert parts[0][0] in parts[0];
      }
      if rooted {
        assert Clean(path) == "" + ['/'] + joined;
        SplitAtSep("", joined, '/');
        assert Split(Clean(path), '/') == [""] + Split(joined, '/');
        TailOfCons("", Split(joined, '/'));
        assert CleanParts(Split(Clean(path), '/'), true, []) == CleanParts(Split(joined, '/'), true, []);
        if parts == [] {
          assert Split(joined, '/') == [""] && [""][1..] == [];
          assert CleanParts([""], true, []) == CleanParts([], true, []);
        }
      } else if parts == [] {
        assert ["."][1..] == [];
        SplitWhole(".", '/');
        assert CleanParts(["."], false, []) == CleanParts([], false, []);
      }
    }
  }
}
