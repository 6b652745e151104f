/** The user generator (src/generators/users.py): the corporate e-mail
    derived from a name and the user's own id, and a batch of user records.
    Faker's names, uuid4 and the random draws are inputs (UserDraw). */
module Users {
  import opened Common

  /** The weighted role pool: three "member" entries make members the
      common case. */
  const ROLES: seq<string> := ["admin", "member", "member", "member", "guest"]

  const DEPARTMENTS: seq<string> := [
    "Engineering", "Product", "Design", "Marketing",
    "Sales", "Customer Success", "HR", "Operations", "Legal"
  ]

  const EMAIL_DOMAIN := "@acme-corp.ai"

  /** How many leading characters of the id go into the e-mail. */
  const PREFIX_LENGTH := 4

  datatype User = User(
    userId: string,
    name: string,
    email: string,
    role: string,
    department: string,
    isActive: int)

  /** What one loop iteration draws: a fake name, a uuid4 string,
      choice(roles), choice(departments) (random.choice returns an element
      of its argument) and whether random() < 0.95. */
  datatype UserDraw = UserDraw(name: string, uuid: string, role: string, department: string, active: bool)

  predicate UserDrawOk(d: UserDraw) {
    d.role in ROLES && d.department in DEPARTMENTS
  }

  /** str.isalnum, restricted to ASCII letters and digits. */
  predicate IsAlnum(c: char) {
    ('a' <= c <= 'z') || ('A' <= c <= 'Z') || ('0' <= c <= '9')
  }

  function LowerChar(c: char): char {
    if 'A' <= c <= 'Z' then (c as int + 32) as char else c
  }

  /** str.lower, restricted to ASCII upper-case letters. */
  function Lower(s: string): (r: string)
    ensures |r| == |s|
    ensures forall k :: 0 <= k < |s| ==> r[k] == LowerChar(s[k])
  {
    if s == [] then [] else [LowerChar(s[0])] + Lower(s[1..])
  }

  /** str.replace(from, to) for single characters. */
  function ReplaceChar(s: string, from: char, to: char): (r: string)
    ensures |r| == |s|
    ensures forall k :: 0 <= k < |s| ==> r[k] == if s[k] == from then to else s[k]
  {
    if s == [] then [] else [if s[0] == from then to else s[0]] + ReplaceChar(s[1..], from, to)
  }

  /** "".join(filter(str.isalnum, s)) */
  function KeepAlnum(s: string): string {
    if s == [] then [] else (if IsAlnum(s[0]) then [s[0]] else []) + KeepAlnum(s[1..])
  }

  /** The name part of the e-mail: lower-cased, spaces turned into dots,
      then everything that is not alphanumeric dropped. */
  function SafeName(name: string): string {
    KeepAlnum(ReplaceChar(Lower(name), ' ', '.'))
  }

  /** u_uuid[:4] (Python's slice: the whole string when it is shorter). */
  function IdPrefix(id: string): (p: string)
    ensures p <= id && |p| == Min(|id|, PREFIX_LENGTH)
    ensures |id| >= PREFIX_LENGTH ==> |p| == PREFIX_LENGTH
  {
    if |id| <= PREFIX_LENGTH then id else id[..PREFIX_LENGTH]
  }

  function Email(safeName: string, prefix: string): string {
    safeName + "." + prefix + EMAIL_DOMAIN
  }

  /** Everything KeepAlnum returns is alphanumeric and it keeps every
      alphanumeric character, in order. */
  lemma {:induction false} KeepAlnumSound(s: string)
    ensures forall k :: 0 <= k < |KeepAlnum(s)| ==> IsAlnum(KeepAlnum(s)[k])
    ensures |KeepAlnum(s)| <= |s|
    ensures (forall k :: 0 <= k < |s| ==> IsAlnum(s[k])) ==> KeepAlnum(s) == s
  {
    if s != [] {
      KeepAlnumSound(s[1..]);
    }
  }

  /** KeepAlnum is a filter: the filter of a concatenation is the
      concatenation of the filters, so with KeepAlnumChar every
      alphanumeric character survives, in order, and nothing else does. */
  lemma {:induction false} KeepAlnumAppend(a: string, b: string)
    ensures KeepAlnum(a + b) == KeepAlnum(a) + KeepAlnum(b)
    decreases |a|
  {
    if a == [] {
      assert a + b == b;
    } else {
      assert (a + b)[0] == a[0];
      assert (a + b)[1..] == a[1..] + b;
      KeepAlnumAppend(a[1..], b);
    }
  }

  /** One character is kept exactly when it is alphanumeric. */
  lemma KeepAlnumChar(c: char)
    ensures KeepAlnum([c]) == if IsAlnum(c) then [c] else []
  {
    assert [c][1..] == [];
  }

  /** The safe name is alphanumeric only: the dots that replaced the
      spaces are removed again by the filter. */
  lemma SafeNameIsAlnum(name: string)
    ensures forall k :: 0 <= k < |SafeName(name)| ==> IsAlnum(SafeName(name)[k])
    ensures '.' !in SafeName(name) && ' ' !in SafeName(name) && '@' !in SafeName(name)
  {
    KeepAlnumSound(ReplaceChar(Lower(name), ' ', '.'));
  }

  lemma {:induction false} KeepAlnumIgnoresReplacedSpaces(s: string)
    ensures KeepAlnum(ReplaceChar(s, ' ', '.')) == KeepAlnum(s)
  {
    if s != [] {
      KeepAlnumIgnoresReplacedSpaces(s[1..]);
    }
  }

  /** An independent description of the same name part: replacing spaces
      by dots first makes no difference, the result is just the
      alphanumeric characters of the lower-cased name. */
  lemma SafeNameIsLowerAlnum(name: string)
    ensures SafeName(name) == KeepAlnum(Lower(name))
  {
    KeepAlnumIgnoresReplacedSpaces(Lower(name));
  }

  /** Reads an e-mail back into its name part and id prefix: it must end in
      "." + a four-character prefix + EMAIL_DOMAIN. */
  function DecodeEmail(email: string): Option<(string, string)> {
    var tail := 1 + PREFIX_LENGTH + |EMAIL_DOMAIN|;
    if |email| < tail then None
    else
      var cut := |email| - tail;
      if email[cut] == '.' && email[cut + 1 + PREFIX_LENGTH..] == EMAIL_DOMAIN
      then Some((email[..cut], email[cut + 1..cut + 1 + PREFIX_LENGTH]))
      else None
  }

  /** The e-mail determines its name part and prefix. */
  lemma DecodeEmailRoundTrip(safeName: string, prefix: string)
    requires |prefix| == PREFIX_LENGTH
    ensures DecodeEmail(Email(safeName, prefix)) == Some((safeName, prefix))
  {
    var e := Email(safeName, prefix);
    var cut := |safeName|;
    assert e[..cut] == safeName;
    assert e[cut] == '.';
    assert e[cut + 1..cut + 1 + PREFIX_LENGTH] == prefix;
    assert e[cut + 1 + PREFIX_LENGTH..] == EMAIL_DOMAIN;
  }

  /** The derivation is injective: with four-character prefixes, two
      e-mails are equal exactly when name parts and prefixes are. */
  lemma EmailInjective(s1: string, p1: string, s2: string, p2: string)
    requires |p1| == PREFIX_LENGTH && |p2| == PREFIX_LENGTH
    ensures Email(s1, p1) == Email(s2, p2) <==> s1 == s2 && p1 == p2
  {
    DecodeEmailRoundTrip(s1, p1);
    DecodeEmailRoundTrip(s2, p2);
  }

  /** The record one iteration builds. */
  function MakeUser(d: UserDraw): User {
    var safeName := SafeName(d.name);
    var email := Email(safeName, IdPrefix(d.uuid));
    User(d.uuid, d.name, email, d.role, d.department, if d.active then 1 else 0)
  }

  /** A user keeps its drawn id and name, gets the e-mail derived from
      them, a role and a department from the fixed pools, and an is_active
      flag of 1 exactly when it was drawn active. */
  lemma MakeUserFields(d: UserDraw)
    requires UserDrawOk(d)
    ensures var u := MakeUser(d);
      && u.userId == d.uuid && u.name == d.name
      && u.email == Email(SafeName(d.name), IdPrefix(d.uuid))
      && u.role in ROLES && u.department in DEPARTMENTS
      && (u.isActive == 0 || u.isActive == 1)
      && (u.isActive == 1 <==> d.active)
  {
  }

  /** generate_batch(count): one user per iteration, in loop order. */
  method GenerateBatch(count: nat, draws: seq<UserDraw>) returns (users: seq<User>)
    requires |draws| == count
    ensures |users| == count
    ensures forall i :: 0 <= i < count ==> users[i] == MakeUser(draws[i])
  {
    users := [];
    var emailsSeen: set<string> := {};
    for i := 0 to count
      invariant |users| == i
      invariant forall k :: 0 <= k < i ==> users[k] == MakeUser(draws[k])
    {
      var d := draws[i];
      var safeName := SafeName(d.name);
      var email := Email(safeName, IdPrefix(d.uuid));
      var user := User(d.uuid, d.name, email, d.role, d.department, if d.active then 1 else 0);
      users := users + [user];
    }
  }

  /** Two users of a batch get the same e-mail exactly when their safe
      names and id prefixes agree (ids of at least four characters). */
  lemma BatchEmailsCollideIff(draws: seq<UserDraw>, i: nat, j: nat)
    requires i < |draws| && j < |draws|
    requires |draws[i].uuid| >= PREFIX_LENGTH && |draws[j].uuid| >= PREFIX_LENGTH
    ensures MakeUser(draws[i]).email == MakeUser(draws[j]).email
        <==> SafeName(draws[i].name) == SafeName(draws[j].name) && IdPrefix(draws[i].uuid) == IdPrefix(draws[j].uuid)
  {
    EmailInjective(SafeName(draws[i].name), IdPrefix(draws[i].uuid),
                   SafeName(draws[j].name), IdPrefix(draws[j].uuid));
  }

  /** Nothing checks uniqueness (the set of seen e-mails is never consulted):
      two different people with the same cleaned name and ids that share
      their first four characters get the same e-mail. */
  lemma EmailsNotUnique()
    ensures var a := UserDraw("Al Wu", "abcd-1", "admin", "HR", true);
            var b := UserDraw("al wu", "abcd-2", "guest", "Legal", true);
            UserDrawOk(a) && UserDrawOk(b) && a.uuid != b.uuid && MakeUser(a).email == MakeUser(b).email
  {
    assert Lower("Al Wu") == "al wu" by {
      assert Lower("Al Wu")[0] == LowerChar('A') == 'a';
    }
    assert IdPrefix("abcd-1") == "abcd" == IdPrefix("abcd-2");
  }
}
