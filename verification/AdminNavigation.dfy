/** Which entry of the administration menu is marked (components/admin-navigation.tsx). */
module AdminNavigation {
  import opened Prelude
  import opened Text

  const SLASH: CodeUnit := 47

  /** The root entry only matches its own page; any other one matches its page and those below it. */
  predicate Matches(path: Text, href: Text, root: Text) {
    if href == root then path == href else path == href || href + [SLASH] <= path
  }

  /** An entry matches its own page, and every page below it unless it is the root of the menu. */
  lemma MatchesExactly(path: Text, href: Text, root: Text)
    ensures Matches(path, href, root) <==>
              path == href || (href != root && exists rest: Text :: path == href + [SLASH] + rest)
  {
    if href + [SLASH] <= path {
      assert path == href + [SLASH] + path[|href| + 1..];
    }
  }

  /** `filter` and `reduce`: the longest matching entry so far, the earlier one of equals. */
  function Active(path: Text, root: Text, entries: seq<Text>): Option<Text> {
    if entries == [] then None
    else
      var longest, item := Active(path, root, entries[..|entries| - 1]), entries[|entries| - 1];
      if !Matches(path, item, root) then longest
      else if longest.None? || longest.value == [] || |item| > |longest.value| then Some(item)
      else longest
  }

  lemma {:induction false} ActiveIsLongest(path: Text, root: Text, entries: seq<Text>)
    requires forall i :: 0 <= i < |entries| ==> entries[i] != []
    ensures var active := Active(path, root, entries);
            && (active.Some? ==> active.value in entries && Matches(path, active.value, root))
            && (forall i :: 0 <= i < |entries| && Matches(path, entries[i], root) ==>
                  active.Some? && |entries[i]| <= |active.value|)
  {
    if entries != [] {
      ActiveIsLongest(path, root, entries[..|entries| - 1]);
      hide Matches;
    }
  }

  lemma MatchingEntriesAreNested(path: Text, root: Text, a: Text, b: Text)
    requires Matches(path, a, root) && Matches(path, b, root) && |a| == |b|
    ensures a == b
  {
    assert path[..|a|] == a && path[..|b|] == b by {
      assert path == a || (path[..|a| + 1] == a + [SLASH] && path[..|a|] == (a + [SLASH])[..|a|]) || a == root;
      assert path == b || (path[..|b| + 1] == b + [SLASH] && path[..|b|] == (b + [SLASH])[..|b|]) || b == root;
    }
  }

  /** At most one entry is marked: the one of the page, or of its nearest ancestor in the menu; none when there is none. */
  lemma MarkedEntryIsNearest(path: Text, root: Text, entries: seq<Text>, entry: Text)
    requires (forall i :: 0 <= i < |entries| ==> entries[i] != []) && entry in entries
    ensures Active(path, root, entries) == Some(entry) <==>
              && Matches(path, entry, root)
              && forall other :: other in entries && Matches(path, other, root) ==> |other| <= |entry|
  {
    ActiveIsLongest(path, root, entries);
    var active := Active(path, root, entries);
    if Matches(path, entry, root) && active.Some? && |active.value| == |entry| {
      MatchingEntriesAreNested(path, root, entry, active.value);
    }
    hide Matches, Active;
  }
}
