/** The client list of src/pages/dashboard/Users.tsx: the list reducers run
    after each API call settles, the PPPoE-credentials predicate, and the
    padded id shown in each row. */
module Users {
  import opened Wrappers
  import opened Decimal
  import ListOps

  datatype ServiceType = Hotspot | Pppoe

  datatype User = User(
    id: int,
    fullName: Option<string>,
    email: Option<string>,
    phone: Option<string>,
    address: Option<string>,
    location: Option<string>,
    username: Option<string>,
    serviceType: ServiceType,
    plan: int,
    vendor: int,
    pppoeCreated: Option<bool>,
    createdAt: Option<string>)

  /** The quick-onboard form. */
  datatype CreateForm = CreateForm(
    fullName: Option<string>,
    email: Option<string>,
    phone: Option<string>,
    address: Option<string>,
    location: Option<string>,
    serviceType: ServiceType,
    plan: int)

  /** The form the page starts with: a hotspot client on plan 0. */
  const InitialForm := CreateForm(None, None, None, None, None, Hotspot, 0)

  function UserId(u: User): int { u.id }

  /** `handleCreate`: the created user goes first; a rejected request leaves
      the list as it was. */
  function AfterCreate(users: seq<User>, created: Result<User>): (r: seq<User>)
    ensures created.Ok? ==> |r| == |users| + 1 && r[0] == created.value && r[1..] == users
    ensures created.Err? ==> r == users
  {
    if created.Ok? then [created.value] + users else users
  }

  /** `handleDelete`: nothing happens unless the user confirms; a rejected
      request aborts before the filter runs. */
  function AfterDelete(users: seq<User>, id: int, confirmed: bool, deleted: Outcome): (r: seq<User>)
    ensures !confirmed || deleted.Fail? ==> r == users
    ensures confirmed && deleted.Pass? ==> r == ListOps.Without(users, UserId, id)
    ensures confirmed && deleted.Pass? ==>
      (forall i :: 0 <= i < |r| ==> r[i] in users && r[i].id != id) &&
      (forall i :: 0 <= i < |users| && users[i].id != id ==> users[i] in r)
  {
    if confirmed && deleted.Pass? then ListOps.Without(users, UserId, id) else users
  }

  /** `handlePPPoE`: after the credentials were created, every user with that
      id is marked; a rejected request aborts before the update. */
  function AfterPppoe(users: seq<User>, id: int, created: Outcome): (r: seq<User>)
    ensures |r| == |users|
    ensures forall i :: 0 <= i < |users| ==>
      r[i] == if created.Pass? && users[i].id == id then users[i].(pppoeCreated := Some(true)) else users[i]
  {
    if created.Fail? then users
    else
      seq(|users|, i requires 0 <= i < |users| =>
        if users[i].id == id then users[i].(pppoeCreated := Some(true)) else users[i])
  }

  /** `needsCredentials`: a PPPoE client whose credentials are not known to
      exist (`!user.pppoe_created` holds for false and for a missing flag). */
  predicate NeedsCredentials(u: User) {
    u.serviceType == Pppoe && u.pppoeCreated != Some(true)
  }

  /** After a successful `handlePPPoE` nobody with that id still needs
      credentials, and nobody else's need changes. */
  lemma PppoeSettlesCredentials(users: seq<User>, id: int)
    ensures forall i :: 0 <= i < |users| && users[i].id == id ==> !NeedsCredentials(AfterPppoe(users, id, Pass)[i])
    ensures forall i :: 0 <= i < |users| && users[i].id != id ==>
      NeedsCredentials(AfterPppoe(users, id, Pass)[i]) == NeedsCredentials(users[i])
  {
  }

  /** Deleting a user just created (with an id not yet listed) restores the
      list exactly. */
  lemma CreateThenDeleteRestores(users: seq<User>, u: User)
    requires forall i :: 0 <= i < |users| ==> users[i].id != u.id
    ensures AfterDelete(AfterCreate(users, Ok(u)), u.id, true, Pass) == users
  {
    ListOps.PrependThenRemove(u, users, UserId);
  }

  /** The id shown in a row, `id.toString().padStart(4, '0')`. */
  function DisplayId(id: int): (s: string) {
    PadStart(IntToString(id), 4, '0')
  }

  /** For a non-negative id the shown text is all digits, at least four
      long, reads back as the id, and is the plain rendering once the id has
      four digits. */
  lemma DisplayIdFaithful(id: nat)
    ensures AllDigits(DisplayId(id))
    ensures |DisplayId(id)| == if |NatToString(id)| >= 4 then |NatToString(id)| else 4
    ensures ParseDigits(DisplayId(id)) == id
    ensures id >= 1000 ==> DisplayId(id) == NatToString(id)
  {
    var s := NatToString(id);
    if |s| < 4 {
      assert DisplayId(id) == seq(4 - |s|, _ => '0') + s;
      ParseLeadingZeros(4 - |s|, s);
    }
    ParseNatToString(id);
    if id >= 1000 {
      FourDigits(id);
    }
  }

  lemma FourDigits(n: nat)
    requires n >= 1000
    ensures |NatToString(n)| >= 4
  {
    var a := n / 10;
    var b := a / 10;
    assert a >= 100 by { assert 10 * a + n % 10 == n; }
    assert b >= 10 by { assert 10 * b + a % 10 == a; }
    assert |NatToString(b)| >= 2 by { assert NatToString(b) == NatToString(b / 10) + [DigitChar(b % 10)]; }
    assert |NatToString(a)| >= 3 by { assert NatToString(a) == NatToString(b) + [DigitChar(a % 10)]; }
    assert NatToString(n) == NatToString(a) + [DigitChar(n % 10)];
  }

  /** Distinct non-negative ids are shown differently. */
  lemma {:induction false} DisplayIdInjective(a: nat, b: nat)
    requires DisplayId(a) == DisplayId(b)
    ensures a == b
  {
    DisplayIdFaithful(a);
    DisplayIdFaithful(b);
  }
}
