/**
 * The sidebar's user menu (src/components/sidebar/nav-user.tsx): the role badge shown next to the
 * user's name, and the avatar's initials.
 */
module NavUser {
  import opened Wrappers
  import opened Permissions
  import Text

  /** `roleMap`: the badge label of each of the four roles. */
  function RoleLabel(r: UserRole): (name: string)
    ensures name != ""
  {
    match r
    case MASTER => "Administrador Master"
    case ADMIN => "Administrador"
    case USER => "Usuário"
    case GUEST => "Convidado"
  }

  /** The badge colour of each of the four roles. */
  function RoleColor(r: UserRole): string {
    match r
    case MASTER => "bg-red-100 text-red-800"
    case ADMIN => "bg-blue-100 text-blue-800"
    case USER => "bg-green-100 text-green-800"
    case GUEST => "bg-yellow-100 text-yellow-800"
  }

  const DefaultColor := "bg-gray-100 text-gray-800"
  const MissingRoleLabel := "Usuário"

  datatype RoleInfo = RoleInfo(text: string, color: string)

  /**
   * `getRoleInfo(role)`. The label is looked up by the upper-cased role, falling back to the
   * role text itself, and a missing or empty role reads "Usuário". The colour switches on the
   * upper-cased role, gray by default.
   */
  function GetRoleInfo(role: Option<string>): (info: RoleInfo)
    ensures info.text != ""
    ensures role.None? || role == Some("") ==> info == RoleInfo(MissingRoleLabel, DefaultColor)
    ensures role.Some? && LookupRole(Text.Upper(role.value)).Some? ==>
      var r := LookupRole(Text.Upper(role.value)).value;
      info == RoleInfo(RoleLabel(r), RoleColor(r))
    ensures role.Some? && role.value != "" && LookupRole(Text.Upper(role.value)).None? ==>
      info == RoleInfo(role.value, DefaultColor)
  {
    var key := if role.Some? then LookupRole(Text.Upper(role.value)) else None;
    var text :=
      if role.None? || role.value == "" then MissingRoleLabel
      else if key.Some? then RoleLabel(key.value)
      else role.value;
    var color := if key.Some? then RoleColor(key.value) else DefaultColor;
    RoleInfo(text, color)
  }

  /** The four roles are recognised in any letter case, and get their own label and colour. */
  lemma RoleInfoIgnoresCase(role: string)
    requires LookupRole(Text.Upper(role)).Some?
    ensures GetRoleInfo(Some(role)) == GetRoleInfo(Some(Text.Upper(role)))
  {
    Text.UpperIdempotent(role);
  }

  /** Every badge colour a known role gets differs from the default one, and no two roles share one. */
  lemma RoleColorsDistinct(r1: UserRole, r2: UserRole)
    ensures RoleColor(r1) != DefaultColor
    ensures RoleColor(r1) == RoleColor(r2) <==> r1 == r2
    ensures RoleLabel(r1) == RoleLabel(r2) <==> r1 == r2
  {
  }

  /** The exact role names get the badge for their role. */
  lemma RoleNameBadge(r: UserRole)
    ensures GetRoleInfo(Some(RoleName(r))) == RoleInfo(RoleLabel(r), RoleColor(r))
  {
    assert Text.Upper(RoleName(r)) == RoleName(r);
  }

  /**
   * A user without a role is labelled as USER but drawn in the default gray, not in USER's
   * green: the label and the colour take different defaults.
   */
  lemma MissingRoleLabelIsNotUserBadge()
    ensures GetRoleInfo(None).text == RoleLabel(USER)
    ensures GetRoleInfo(None).color != RoleColor(USER)
  {
  }

  // ---------------------------------------------------------------------------
  // Initials
  // ---------------------------------------------------------------------------

  /** `s.split(' ')`: the pieces between single spaces; an empty string gives one empty piece. */
  function Split(s: string): (parts: seq<string>)
    ensures |parts| >= 1
    ensures forall k :: 0 <= k < |parts| ==> ' ' !in parts[k]
    decreases |s|
  {
    if s == [] then [""]
    else if s[0] == ' ' then [""] + Split(s[1..])
    else
      var rest := Split(s[1..]);
      [[s[0]] + rest[0]] + rest[1..]
  }

  /** `parts.join(' ')`. */
  function Join(parts: seq<string>): string
    requires |parts| >= 1
    decreases |parts|
  {
    if |parts| == 1 then parts[0] else parts[0] + " " + Join(parts[1..])
  }

  /** Joining the pieces with spaces gives back the string split. */
  lemma {:induction false} JoinSplit(s: string)
    ensures Join(Split(s)) == s
    decreases |s|
  {
    if s == [] {
    } else if s[0] == ' ' {
      JoinSplit(s[1..]);
      assert Split(s)[1..] == Split(s[1..]);
      assert s == [' '] + s[1..];
    } else {
      var rest := Split(s[1..]);
      JoinSplit(s[1..]);
      var parts := Split(s);
      assert parts[0] == [s[0]] + rest[0];
      assert parts[1..] == rest[1..];
      if |rest| == 1 {
        assert s == [s[0]] + rest[0];
      } else {
        assert Join(rest) == rest[0] + " " + Join(rest[1..]);
        assert s == [s[0]] + s[1..];
      }
    }
  }

  /** No piece contains a space. */
  lemma {:induction false} SplitPiecesHaveNoSpace(s: string)
    ensures forall k, j :: 0 <= k < |Split(s)| && 0 <= j < |Split(s)[k]| ==> Split(s)[k][j] != ' '
    decreases |s|
  {
    if s != [] {
      SplitPiecesHaveNoSpace(s[1..]);
      var rest := Split(s[1..]);
      if s[0] != ' ' {
        forall k, j | 0 <= k < |Split(s)| && 0 <= j < |Split(s)[k]| ensures Split(s)[k][j] != ' ' {
          if k == 0 {
            if j > 0 {
              assert Split(s)[0][j] == rest[0][j - 1];
            }
          } else {
            assert Split(s)[k] == rest[k];
          }
        }
      } else {
        forall k, j | 0 <= k < |Split(s)| && 0 <= j < |Split(s)[k]| ensures Split(s)[k][j] != ' ' {
          assert Split(s)[k] == rest[k - 1];
        }
      }
    }
  }

  /** `.map(n => n[0]).join('')`: the first character of each piece; an empty piece adds nothing. */
  function Heads(parts: seq<string>): (r: string)
    ensures |r| <= |parts|
  {
    if parts == [] then ""
    else (if parts[0] != "" then [parts[0][0]] else "") + Heads(parts[1..])
  }

  /**
   * The characters that start a word when scanning left to right: not a space, and first or
   * right after a space. `afterSpace` says whether the previous character was a space.
   */
  function WordStarts(s: string, afterSpace: bool): string {
    if s == [] then ""
    else (if s[0] != ' ' && afterSpace then [s[0]] else "") + WordStarts(s[1..], s[0] == ' ')
  }

  /** The heads of the pieces are exactly the word starts. */
  lemma {:induction false} HeadsAreWordStarts(s: string)
    ensures Heads(Split(s)) == WordStarts(s, true)
    ensures Heads(Split(s)[1..]) == WordStarts(s, false)
    decreases |s|
  {
    if s != [] {
      HeadsAreWordStarts(s[1..]);
      var rest := Split(s[1..]);
      if s[0] == ' ' {
        assert Split(s)[1..] == rest;
      } else {
        assert Split(s)[1..] == rest[1..];
      }
    }
  }

  /** `getInitials(name)`: the upper-cased word starts, first two only. */
  function GetInitials(name: string): (initials: string)
    ensures |initials| <= 2
    ensures |initials| == if |WordStarts(name, true)| < 2 then |WordStarts(name, true)| else 2
    ensures initials == Text.Upper(WordStarts(name, true))[..|initials|]
  {
    HeadsAreWordStarts(name);
    var all := Text.Upper(Heads(Split(name)));
    all[..if |all| < 2 then |all| else 2]
  }

  /** Initials are already upper case. */
  lemma InitialsAreUpperCase(name: string)
    ensures Text.Upper(GetInitials(name)) == GetInitials(name)
  {
    var all := Text.Upper(WordStarts(name, true));
    Text.UpperIdempotent(WordStarts(name, true));
    assert Text.Upper(all[..|GetInitials(name)|]) == Text.Upper(all)[..|GetInitials(name)|];
  }

  /** Whether the last character scanned was a space (`afterSpace` when nothing was scanned). */
  function AfterScan(x: string, afterSpace: bool): bool {
    if x == [] then afterSpace else x[|x| - 1] == ' '
  }

  /** Scanning `x + y` is scanning `x`, then `y` from where `x` left off. */
  lemma {:induction false} WordStartsConcat(x: string, y: string, afterSpace: bool)
    ensures WordStarts(x + y, afterSpace) == WordStarts(x, afterSpace) + WordStarts(y, AfterScan(x, afterSpace))
    decreases |x|
  {
    if x == [] {
      assert x + y == y;
    } else {
      assert (x + y)[1..] == x[1..] + y;
      WordStartsConcat(x[1..], y, x[0] == ' ');
    }
  }

  /** A run of two spaces gives the same initials as one: the empty piece between them adds nothing. */
  lemma DoubleSpaceAddsNothing(a: string, b: string)
    ensures GetInitials(a + "  " + b) == GetInitials(a + " " + b)
  {
    WordStartsConcat(a, "  ", true);
    WordStartsConcat(a + "  ", b, true);
    WordStartsConcat(a, " ", true);
    WordStartsConcat(a + " ", b, true);
    assert WordStarts("  ", AfterScan(a, true)) == "";
    assert WordStarts(" ", AfterScan(a, true)) == "";
  }
}
