/** The user entity of the user service and its validating constructor. */
module UserDomain {
  import opened Wrappers
  import opened Strconv

  const ErrNameRequired: string := "name is required"

  /** A user row; `id` is 0 until storage assigns one, timestamps are Unix microseconds. */
  datatype User = User(id: Int64, name: string, createdAt: Int64, updatedAt: Int64)

  /** Query options of the user list: a page number and a page size (Go `int`). */
  datatype UserFilter = UserFilter(pageNum: Int64, pageSize: Int64)

  /** Go's `unicode.IsSpace`: ASCII and Latin-1 white space plus the Unicode White_Space characters. */
  predicate IsSpace(c: char) {
    c == '\t' || c == '\n' || c == '\U{000B}' || c == '\U{000C}' || c == '\r' || c == ' '
    || c == '\U{0085}' || c == '\U{00A0}' || c == '\U{1680}'
    || ('\U{2000}' <= c <= '\U{200A}')
    || c == '\U{2028}' || c == '\U{2029}' || c == '\U{202F}' || c == '\U{205F}' || c == '\U{3000}'
  }

  function TrimLeft(s: string): (t: string)
    ensures |t| <= |s|
  {
    if s != [] && IsSpace(s[0]) then TrimLeft(s[1..]) else s
  }

  function TrimRight(s: string): (t: string)
    ensures |t| <= |s|
  {
    if s != [] && IsSpace(s[|s| - 1]) then TrimRight(s[..|s| - 1]) else s
  }

  /** `strings.TrimSpace`: drops leading and trailing white space. */
  function TrimSpace(s: string): string {
    TrimRight(TrimLeft(s))
  }

  predicate HasNonSpace(s: string) {
    exists i :: 0 <= i < |s| && !IsSpace(s[i])
  }

  lemma {:induction false} TrimLeftEmpty(s: string)
    ensures TrimLeft(s) == [] <==> !HasNonSpace(s)
  {
    if s != [] && IsSpace(s[0]) {
      TrimLeftEmpty(s[1..]);
      if HasNonSpace(s[1..]) {
        var i :| 0 <= i < |s[1..]| && !IsSpace(s[1..][i]);
        assert !IsSpace(s[i + 1]);
      }
      if HasNonSpace(s) {
        var i :| 0 <= i < |s| && !IsSpace(s[i]);
        assert !IsSpace(s[1..][i - 1]);
      }
    } else if s != [] {
      assert !IsSpace(s[0]);
    }
  }

  lemma {:induction false} TrimRightEmpty(s: string)
    ensures TrimRight(s) == [] <==> !HasNonSpace(s)
  {
    if s != [] && IsSpace(s[|s| - 1]) {
      var p := s[..|s| - 1];
      TrimRightEmpty(p);
      if HasNonSpace(p) {
        var i :| 0 <= i < |p| && !IsSpace(p[i]);
        assert !IsSpace(s[i]);
      }
      if HasNonSpace(s) {
        var i :| 0 <= i < |s| && !IsSpace(s[i]);
        assert i < |s| - 1 && !IsSpace(p[i]);
      }
    } else if s != [] {
      assert !IsSpace(s[|s| - 1]);
    }
  }

  /**
   * Trimming the left end removes a run of white space and nothing else: the
   * result is a suffix of `s`, every character dropped is white space, and so
   * every non-space character of `s` is kept, at the same place from the end.
   */
  lemma TrimLeftKeepsNonSpace(s: string)
    ensures TrimLeft(s) == s[|s| - |TrimLeft(s)|..]
    ensures forall i :: 0 <= i < |s| - |TrimLeft(s)| ==> IsSpace(s[i])
    ensures forall i :: 0 <= i < |s| && !IsSpace(s[i]) ==> i >= |s| - |TrimLeft(s)|
    ensures HasNonSpace(TrimLeft(s)) <==> HasNonSpace(s)
  {
    TrimLeftDropsSpace(s);
    TrimLeftEmpty(s);
    if TrimLeft(s) != [] {
      TrimLeftHeadNonSpace(s);
    }
  }

  lemma {:induction false} TrimLeftDropsSpace(s: string)
    ensures TrimLeft(s) == s[|s| - |TrimLeft(s)|..]
    ensures forall i :: 0 <= i < |s| - |TrimLeft(s)| ==> IsSpace(s[i])
  {
    if s != [] && IsSpace(s[0]) {
      TrimLeftDropsSpace(s[1..]);
      forall i | 0 <= i < |s| - |TrimLeft(s)|
        ensures IsSpace(s[i])
      {
        if i > 0 {
          assert IsSpace(s[1..][i - 1]);
        }
      }
    }
  }

  lemma {:induction false} TrimLeftHeadNonSpace(s: string)
    requires TrimLeft(s) != []
    ensures !IsSpace(TrimLeft(s)[0])
  {
    if s != [] && IsSpace(s[0]) {
      TrimLeftHeadNonSpace(s[1..]);
    }
  }

  /** Trimming leaves nothing exactly when the name holds no character but white space. */
  lemma TrimSpaceEmpty(s: string)
    ensures TrimSpace(s) == [] <==> !HasNonSpace(s)
  {
    TrimRightEmpty(TrimLeft(s));
    TrimLeftKeepsNonSpace(s);
  }

  /** A name is valid when it is not empty once white space is trimmed from both ends. */
  function ValidateName(name: string): (err: Option<string>)
    ensures err.None? <==> HasNonSpace(name)
    ensures err.Some? ==> err.value == ErrNameRequired
  {
    TrimSpaceEmpty(name);
    if TrimSpace(name) == "" then Some(ErrNameRequired) else None
  }

  /** The invariant every constructed user satisfies. */
  predicate WellFormed(u: User) {
    HasNonSpace(u.name)
  }

  /**
   * Validates the name and builds a user stamped with the clock reading `now`;
   * the name is stored as given, untrimmed.
   */
  function NewUser(name: string, now: Int64): (r: Result<User, string>)
    ensures r.Ok? <==> HasNonSpace(name)
    ensures r.Err? ==> r.error == ErrNameRequired
    ensures r.Ok? ==> WellFormed(r.value) && r.value.name == name
    ensures r.Ok? ==> r.value.id == 0 && r.value.createdAt == now && r.value.updatedAt == now
  {
    match ValidateName(name)
    case Some(e) => Err(e)
    case None => Ok(User(0, name, now, now))
  }

  /** A name padded with white space is accepted and kept with its padding. */
  lemma PaddedNameStoredRaw(now: Int64)
    ensures NewUser(" ann ", now) == Ok(User(0, " ann ", now, now))
    ensures NewUser(" \t\n", now) == Err(ErrNameRequired)
  {
    assert !IsSpace(" ann "[1]);
    var blank := " \t\n";
    assert !HasNonSpace(blank) by {
      forall i | 0 <= i < |blank| ensures IsSpace(blank[i]) {
      }
    }
  }
}
