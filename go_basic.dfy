/**
 * The user list of the go-basic command: a `Kubernetes` record whose users
 * are appended, removed and printed.
 *
 * `RemoveUser` removes every entry equal to the given name. The original
 * loop ranges over the list while shrinking it in place; `RangeRemove`
 * models that loop step by step over the shared backing array, and the
 * lemmas at the end show where the two agree (at most one matching entry)
 * and where the original skips an entry or indexes past the shrunken list.
 */
module GoBasic {
  import opened Wrappers

  /** `users` with every entry equal to `user` dropped, the others in order. */
  function Without(users: seq<string>, user: string): seq<string> {
    if users == [] then []
    else (if users[0] == user then [] else [users[0]]) + Without(users[1..], user)
  }

  /** The names joined by single spaces. */
  function JoinSpaced(names: seq<string>): string {
    if names == [] then ""
    else if |names| == 1 then names[0]
    else names[0] + " " + JoinSpaced(names[1..])
  }

  /** From index `i` on, each name followed by a single space unless it is the last one. */
  function Spaced(names: seq<string>, i: nat): string
    requires i <= |names|
    decreases |names| - i
  {
    if i == |names| then ""
    else names[i] + (if i < |names| - 1 then " " else "") + Spaced(names, i + 1)
  }

  /** How `fmt.Sprintf("Users: %v", users)` prints a list of strings. */
  function FormatUsers(users: seq<string>): string {
    "Users: [" + JoinSpaced(users) + "]"
  }

  class Kubernetes {
    var name: string
    var version: string
    var users: seq<string>
    var nodeNumber: int

    constructor (name: string, version: string, users: seq<string>, nodeNumber: int)
      ensures this.name == name && this.version == version && this.users == users && this.nodeNumber == nodeNumber
    {
      this.name := name;
      this.version := version;
      this.users := users;
      this.nodeNumber := nodeNumber;
    }

    /** The printed list: `Users: [`, the names by single spaces, `]`; the last user is printed last. */
    function PrintUsers(): (r: string)
      reads this
      ensures |r| >= 9 && r[..8] == "Users: [" && r[|r| - 1] == ']'
      ensures users == [] ==> r == "Users: []"
      ensures users != [] ==> EndsWith(r, users[|users| - 1] + "]")
      ensures r == "Users: [" + Spaced(users, 0) + "]"
    {
      FormatEndsWithLast(users);
      SpacedSuffix(users, 0);
      FormatUsers(users)
    }

    method AddUser(user: string)
      modifies this
      ensures users == old(users) + [user]
      ensures name == old(name) && version == old(version) && nodeNumber == old(nodeNumber)
      ensures EndsWith(PrintUsers(), user + "]")
    {
      users := users + [user];
    }

    /** Removes `user` in place: a match is cut out and the same index is looked at again. */
    method RemoveUser(user: string)
      modifies this
      ensures users == Without(old(users), user)
      ensures name == old(name) && version == old(version) && nodeNumber == old(nodeNumber)
    {
      var i := 0;
      while i < |users|
        invariant 0 <= i <= |users|
        invariant Without(users[..i], user) == users[..i]
        invariant Without(users, user) == Without(old(users), user)
        invariant name == old(name) && version == old(version) && nodeNumber == old(nodeNumber)
        decreases |users| - i
      {
        if users[i] == user {
          CutStep(users, i, user);
          users := users[..i] + users[i + 1..];
        } else {
          KeepStep(users, i, user);
          i := i + 1;
        }
      }
      assert users[..i] == users;
    }
  }

  // ---------------------------------------------------------------------
  // Lemmas about the user list
  // ---------------------------------------------------------------------

  lemma {:induction false} WithoutConcat(a: seq<string>, b: seq<string>, user: string)
    ensures Without(a + b, user) == Without(a, user) + Without(b, user)
  {
    if a == [] {
      assert a + b == b;
    } else {
      var head := if a[0] == user then [] else [a[0]];
      assert (a + b)[0] == a[0] && (a + b)[1..] == a[1..] + b;
      assert Without(a + b, user) == head + Without(a[1..] + b, user);
      WithoutConcat(a[1..], b, user);
      assert Without(a, user) == head + Without(a[1..], user);
    }
  }

  /** Cutting out a match at `i` keeps the checked prefix and what removal leaves. */
  lemma CutStep(users: seq<string>, i: nat, user: string)
    requires i < |users| && users[i] == user
    requires Without(users[..i], user) == users[..i]
    ensures var cut := users[..i] + users[i + 1..];
      && |cut| == |users| - 1
      && cut[..i] == users[..i]
      && Without(cut, user) == Without(users, user)
  {
    var cut := users[..i] + users[i + 1..];
    assert cut[..i] == users[..i];
    assert users == users[..i] + users[i..];
    assert users[i..] == [users[i]] + users[i + 1..];
    WithoutConcat(users[..i], users[i..], user);
    WithoutConcat([users[i]], users[i + 1..], user);
    WithoutConcat(users[..i], users[i + 1..], user);
    assert Without([users[i]], user) == [];
  }

  /** Stepping past a non-match extends the checked prefix by one. */
  lemma KeepStep(users: seq<string>, i: nat, user: string)
    requires i < |users| && users[i] != user
    requires Without(users[..i], user) == users[..i]
    ensures Without(users[..i + 1], user) == users[..i + 1]
  {
    assert users[..i + 1] == users[..i] + [users[i]];
    WithoutConcat(users[..i], [users[i]], user);
    assert Without([users[i]], user) == [users[i]];
  }

  /** Exactly the entries other than `user` remain. */
  lemma {:induction false} WithoutMembers(users: seq<string>, user: string)
    ensures forall x :: x in Without(users, user) <==> x in users && x != user
  {
    if users != [] {
      WithoutMembers(users[1..], user);
      assert users == [users[0]] + users[1..];
    }
  }

  /** Removing an absent name leaves the list as it is. */
  lemma {:induction false} WithoutAbsent(users: seq<string>, user: string)
    requires user !in users
    ensures Without(users, user) == users
  {
    if users != [] {
      WithoutAbsent(users[1..], user);
      assert users == [users[0]] + users[1..];
    }
  }

  /** A name present once, at `p`, is cut out there: one entry fewer, the rest in order. */
  lemma WithoutSingle(users: seq<string>, user: string, p: nat)
    requires p < |users| && users[p] == user
    requires forall j | 0 <= j < |users| && j != p :: users[j] != user
    ensures Without(users, user) == users[..p] + users[p + 1..]
    ensures |Without(users, user)| == |users| - 1
  {
    assert users == users[..p] + [users[p]] + users[p + 1..];
    WithoutConcat(users[..p] + [users[p]], users[p + 1..], user);
    WithoutConcat(users[..p], [users[p]], user);
    WithoutAbsent(users[..p], user);
    WithoutAbsent(users[p + 1..], user);
  }

  /** Printing after an append shows the new name last, after a space. */
  lemma {:induction false} JoinSpacedSnoc(names: seq<string>, name: string)
    ensures JoinSpaced(names + [name]) == if names == [] then name else JoinSpaced(names) + " " + name
  {
    var longer := names + [name];
    if names == [] {
      assert longer == [name];
    } else {
      assert longer[0] == names[0] && |longer| >= 2;
      assert JoinSpaced(longer) == names[0] + " " + JoinSpaced(longer[1..]);
      if |names| == 1 {
        assert longer[1..] == [name];
      } else {
        assert longer[1..] == names[1..] + [name];
        JoinSpacedSnoc(names[1..], name);
        assert JoinSpaced(names) == names[0] + " " + JoinSpaced(names[1..]);
      }
    }
  }

  /** Whether `s` ends with `t`. */
  predicate EndsWith(s: string, t: string) {
    |t| <= |s| && s[|s| - |t|..] == t
  }

  lemma FormatEndsWithLast(users: seq<string>)
    ensures users != [] ==> EndsWith(FormatUsers(users), users[|users| - 1] + "]")
  {
    if users != [] {
      var init := users[..|users| - 1];
      var last := users[|users| - 1];
      assert users == init + [last];
      JoinSpacedSnoc(init, last);
      var f := FormatUsers(users);
      if init == [] {
        assert f == "Users: [" + (last + "]");
      } else {
        assert f == ("Users: [" + JoinSpaced(init) + " ") + (last + "]");
      }
    }
  }

  /** Joining the names from index `k` on lists them in order, single spaces between. */
  lemma {:induction false} SpacedSuffix(names: seq<string>, k: nat)
    requires k <= |names|
    ensures JoinSpaced(names[k..]) == Spaced(names, k)
    decreases |names| - k
  {
    if k < |names| {
      var rest := names[k..];
      assert rest[0] == names[k];
      assert rest[1..] == names[k + 1..];
      SpacedSuffix(names, k + 1);
      if k == |names| - 1 {
        assert rest == [names[k]];
        assert Spaced(names, k + 1) == "";
      } else {
        assert JoinSpaced(rest) == names[k] + " " + JoinSpaced(rest[1..]);
      }
    } else {
      assert names[k..] == [];
    }
  }

  lemma PrintAfterAdd(users: seq<string>, user: string)
    ensures FormatUsers(users + [user])
         == if users == [] then "Users: [" + user + "]"
            else "Users: [" + JoinSpaced(users) + " " + user + "]"
  {
    JoinSpacedSnoc(users, user);
  }

  // ---------------------------------------------------------------------
  // The loop as the original writes it
  // ---------------------------------------------------------------------

  /**
   * The original loop from index `i` on: it visits every index of the list
   * it started with, reading the shared backing array `arr` (of that fixed
   * length), whose first `len` entries are the current list. Cutting out
   * entry `i` shifts the rest of the current list one slot left in place and
   * leaves the slot after it as it was. None stands for the slice-bounds
   * panic when the entry after index `i` lies past the shrunken list.
   */
  function RangeRemove(arr: seq<string>, len: nat, i: nat, user: string): Option<seq<string>>
    requires len <= |arr| && i <= |arr|
    decreases |arr| - i
  {
    if i == |arr| then Some(arr[..len])
    else if arr[i] == user then
      if i + 1 > len then None
      else RangeRemove(arr[..i] + arr[i + 1..len] + arr[len - 1..], len - 1, i + 1, user)
    else RangeRemove(arr, len, i + 1, user)
  }

  /** The original `RemoveUser` on `users`; None when it panics. A list without the user is left as it is. */
  function RemoveUserAsWritten(users: seq<string>, user: string): (r: Option<seq<string>>)
    ensures user !in users ==> r == Some(users)
  {
    if user !in users then
      RangeRemoveNoMatch(users, |users|, 0, user);
      assert users[..|users|] == users;
      RangeRemove(users, |users|, 0, user)
    else
      RangeRemove(users, |users|, 0, user)
  }

  lemma {:induction false} RangeRemoveNoMatch(arr: seq<string>, len: nat, i: nat, user: string)
    requires len <= |arr| && i <= |arr|
    requires forall j | i <= j < |arr| :: arr[j] != user
    ensures RangeRemove(arr, len, i, user) == Some(arr[..len])
    decreases |arr| - i
  {
    if i < |arr| {
      RangeRemoveNoMatch(arr, len, i + 1, user);
    }
  }

  lemma {:induction false} RangeRemoveSkip(arr: seq<string>, len: nat, i: nat, p: nat, user: string)
    requires len <= |arr| && i <= p <= |arr|
    requires forall j | i <= j < p :: arr[j] != user
    ensures RangeRemove(arr, len, i, user) == RangeRemove(arr, len, p, user)
    decreases p - i
  {
    if i < p {
      RangeRemoveSkip(arr, len, i + 1, p, user);
    }
  }

  /** With at most one matching entry, the original loop does remove that entry. */
  lemma AsWrittenAgreesForOneMatch(users: seq<string>, user: string)
    requires forall i, j | 0 <= i < j < |users| :: !(users[i] == user && users[j] == user)
    ensures RemoveUserAsWritten(users, user) == Some(Without(users, user))
  {
    if user !in users {
      RangeRemoveNoMatch(users, |users|, 0, user);
      WithoutAbsent(users, user);
      assert users[..|users|] == users;
    } else {
      var p :| 0 <= p < |users| && users[p] == user;
      RangeRemoveSkip(users, |users|, 0, p, user);
      var L := |users|;
      var arr := users[..p] + users[p + 1..L] + users[L - 1..];
      assert |arr| == L;
      forall j | p + 1 <= j < L
        ensures arr[j] != user
      {
        if j < L - 1 {
          assert arr[j] == users[j + 1];
        } else {
          assert arr[j] == users[L - 1];
        }
      }
      RangeRemoveNoMatch(arr, L - 1, p + 1, user);
      assert arr[..L - 1] == users[..p] + users[p + 1..];
      WithoutSingle(users, user, p);
    }
  }

  /** Two adjacent matches as the last two entries: the original indexes past the list. */
  lemma AsWrittenPanicsOnTrailingPair()
    ensures RemoveUserAsWritten(["u", "u"], "u") == None
    ensures Without(["u", "u"], "u") == []
  {
    var arr := ["u", "u"];
    assert arr[..0] + arr[1..2] + arr[1..] == ["u", "u"];
  }

  /** Two adjacent matches followed by another name: the second match survives. */
  lemma AsWrittenSkipsAdjacentMatch()
    ensures RemoveUserAsWritten(["u", "u", "x"], "u") == Some(["u", "x"])
    ensures Without(["u", "u", "x"], "u") == ["x"]
  {
    var arr: seq<string> := ["u", "u", "x"];
    var arr1 := arr[..0] + arr[1..3] + arr[2..];
    assert arr1 == ["u", "x", "x"];
    assert RangeRemove(arr, 3, 0, "u") == RangeRemove(arr1, 2, 1, "u");
    assert RangeRemove(arr1, 2, 1, "u") == RangeRemove(arr1, 2, 2, "u") == RangeRemove(arr1, 2, 3, "u");
    assert arr1[..2] == ["u", "x"];
  }
}
