/** The in-memory user repository: two indexes that share one heap object per user. */
module UserStore {
  import opened Wrappers

  type Uuid = nat

  /** What a caller passes in and gets back: always a copy. */
  datatype UserData = UserData(id: Uuid, email: string, passwordHash: string, profile: string)

  /** The stored object. */
  class User {
    var id: Uuid
    var email: string
    var passwordHash: string
    var profile: string

    constructor (d: UserData)
      ensures Data() == d
    {
      id, email, passwordHash, profile := d.id, d.email, d.passwordHash, d.profile;
    }

    function Data(): UserData
      reads this
    {
      UserData(id, email, passwordHash, profile)
    }
  }

  datatype RepoError = EmailTaken | NotFound

  /** The simple map the two indexes stand for. */
  type Table = map<Uuid, UserData>

  ghost predicate HasEmail(t: Table, email: string) {
    exists id :: id in t && t[id].email == email
  }

  ghost predicate Proper(t: Table) {
    && (forall id :: id in t ==> t[id].id == id)
    && (forall a, b :: a in t && b in t && t[a].email == t[b].email ==> a == b)
  }

  class MemRepo {
    var byID: map<Uuid, User>
    var byEmail: map<string, User>

    /** The same objects under both indexes, each under its own id and its own email. */
    ghost predicate Valid()
      reads this, Objects()
    {
      && (forall id :: id in byID ==>
            byID[id].id == id && byID[id].email in byEmail && byEmail[byID[id].email] == byID[id])
      && (forall email :: email in byEmail ==>
            byEmail[email].email == email && byEmail[email].id in byID && byID[byEmail[email].id] == byEmail[email])
    }

    ghost function Objects(): set<User>
      reads this
    {
      (set id | id in byID :: byID[id]) + (set email | email in byEmail :: byEmail[email])
    }

    ghost function Contents(): Table
      reads this, Objects()
    {
      map id | id in byID :: byID[id].Data()
    }

    constructor ()
      ensures Valid() && Contents() == map[]
    {
      byID, byEmail := map[], map[];
    }

    lemma EmailIndexed(email: string)
      requires Valid()
      ensures email in byEmail <==> HasEmail(Contents(), email)
    {
      if email in byEmail {
        assert byEmail[email].id in Contents() && Contents()[byEmail[email].id].email == email;
      }
    }

    /** Both indexes answer alike: what one finds by email is what the other finds by that user's id. */
    lemma ContentsProper()
      requires Valid()
      ensures Proper(Contents())
      ensures forall email :: email in byEmail ==> Contents()[byEmail[email].id] == byEmail[email].Data()
    {
    }

    twostate lemma PutInTable(new u: User)
      requires byID == old(byID)[u.id := u]
      requires forall o :: o in old(Objects()) ==> unchanged(o)
      ensures Contents() == old(Contents())[u.id := u.Data()]
    {
      forall id | id in byID && id != u.id ensures byID[id].Data() == old(byID[id].Data()) {
        assert old(byID[id]) in old(Objects());
      }
    }

    twostate lemma PutInIndexes(new u: User)
      requires old(Valid()) && u.id !in old(byID) && u.email !in old(byEmail)
      requires byID == old(byID)[u.id := u] && byEmail == old(byEmail)[u.email := u]
      requires forall o :: o in old(Objects()) ==> unchanged(o)
      ensures Valid()
    {
      forall id | id in byID
        ensures byID[id].id == id && byID[id].email in byEmail && byEmail[byID[id].email] == byID[id]
      {
        assert id != u.id ==> old(byID[id]) in old(Objects());
      }
      forall email | email in byEmail
        ensures byEmail[email].email == email && byEmail[email].id in byID && byID[byEmail[email].id] == byEmail[email]
      {
        assert email != u.email ==> old(byEmail[email]) in old(Objects());
      }
    }

    /**
     Refused exactly when the email is taken. An id already in use would leave the old object behind under its
     email, so the indexes stay in agreement exactly when the id is new.
     */
    method Create(u: UserData) returns (r: Result<(), RepoError>)
      requires Valid()
      modifies this
      ensures r == if HasEmail(old(Contents()), u.email) then Err(EmailTaken) else Ok(())
      ensures Contents() == if r.Ok? then old(Contents())[u.id := u] else old(Contents())
      ensures Valid() <==> r.Err? || u.id !in old(Contents())
      ensures u.id !in old(Contents()) ==> Contents() == Step(History(old(Contents()), {}), Op.Create(u)).t
      ensures fresh(Objects() - old(Objects()))
    {
      EmailIndexed(u.email);
      if u.email in byEmail {
        return Err(EmailTaken);
      }
      var stored := new User(u);
      byID := byID[u.id := stored];
      byEmail := byEmail[u.email := stored];
      PutInTable(stored);
      if u.id in old(byID) {
        assert byEmail[old(byID)[u.id].email] == old(byID)[u.id] != byID[u.id];
      } else {
        PutInIndexes(stored);
      }
      r := Ok(());
    }

    method GetByID(id: Uuid) returns (r: Result<UserData, RepoError>)
      requires Valid()
      ensures r == if id in Contents() then Ok(Contents()[id]) else Err(NotFound)
    {
      if id !in byID {
        return Err(NotFound);
      }
      r := Ok(byID[id].Data());
    }

    /** The one user with this email, through the other index. */
    method GetByEmail(email: string) returns (r: Result<UserData, RepoError>)
      requires Valid()
      ensures r.Ok? <==> HasEmail(Contents(), email)
      ensures r.Ok? ==> r.value.email == email && r.value.id in Contents() && Contents()[r.value.id] == r.value
      ensures r.Err? ==> r.error == NotFound
    {
      EmailIndexed(email);
      if email !in byEmail {
        return Err(NotFound);
      }
      r := Ok(byEmail[email].Data());
    }

    /** A new object takes the old one's place under both keys; email and password are not the caller's to set. */
    method Update(u: UserData) returns (r: Result<(), RepoError>)
      requires Valid()
      modifies this
      ensures Valid()
      ensures r == if u.id in old(Contents()) then Ok(()) else Err(NotFound)
      ensures Contents() == if r.Err? then old(Contents()) else
                old(Contents())[u.id := old(Contents())[u.id].(profile := u.profile)]
      ensures Contents() == Step(History(old(Contents()), {}), Op.Update(u)).t
      ensures fresh(Objects() - old(Objects()))
    {
      if u.id !in byID {
        return Err(NotFound);
      }
      var existing := byID[u.id];
      var stored := new User(u.(email := existing.email, passwordHash := existing.passwordHash));
      byID := byID[u.id := stored];
      byEmail := byEmail[existing.email := stored];
      r := Ok(());
    }

    /** Written in place, once, and seen through both indexes. */
    method UpdatePassword(id: Uuid, hash: string) returns (r: Result<(), RepoError>)
      requires Valid()
      modifies Objects()
      ensures Valid() && byID == old(byID) && byEmail == old(byEmail)
      ensures r == if id in old(Contents()) then Ok(()) else Err(NotFound)
      ensures Contents() == if r.Err? then old(Contents()) else
                old(Contents())[id := old(Contents())[id].(passwordHash := hash)]
      ensures Contents() == Step(History(old(Contents()), {}), Op.UpdatePassword(id, hash)).t
    {
      if id !in byID {
        return Err(NotFound);
      }
      var u := byID[id];
      u.passwordHash := hash;
      r := Ok(());
    }

    method Delete(id: Uuid)
      requires Valid()
      modifies this
      ensures Valid()
      ensures Contents() == old(Contents()) - {id}
      ensures Contents() == Step(History(old(Contents()), {}), Op.Delete(id)).t
    {
      if id in byID {
        byEmail := byEmail - {byID[id].email};
        byID := byID - {id};
      }
    }
  }

  // ------------------------------------------------------------ runs

  datatype Op =
    | Create(u: UserData)                    // with an id never used before
    | Update(u: UserData)
    | UpdatePassword(id: Uuid, hash: string)
    | Delete(id: Uuid)

  datatype History = History(t: Table, ever: set<Uuid>)

  ghost function Step(h: History, op: Op): History {
    match op
    case Create(u) =>
      if u.id in h.ever || HasEmail(h.t, u.email) then h else History(h.t[u.id := u], h.ever + {u.id})
    case Update(u) => if u.id in h.t then h.(t := h.t[u.id := h.t[u.id].(profile := u.profile)]) else h
    case UpdatePassword(id, hash) => if id in h.t then h.(t := h.t[id := h.t[id].(passwordHash := hash)]) else h
    case Delete(id) => h.(t := h.t - {id})
  }

  ghost function Run(h: History, ops: seq<Op>): History
    decreases |ops|
  {
    if ops == [] then h else Run(Step(h, ops[0]), ops[1..])
  }

  ghost predicate Known(h: History) {
    Proper(h.t) && forall id :: id in h.t ==> id in h.ever
  }

  /** Whatever happens, emails stay unique, and a user keeps the email it was created with for good. */
  lemma {:induction false} EmailsForLife(h: History, ops: seq<Op>, id: Uuid)
    requires Known(h)
    ensures Known(Run(h, ops))
    ensures id in h.ever && id in Run(h, ops).t ==> id in h.t && Run(h, ops).t[id].email == h.t[id].email
    decreases |ops|
  {
    if ops != [] {
      var n := Step(h, ops[0]);
      assert Known(n) && (id in h.ever && id in n.t ==> id in h.t && n.t[id].email == h.t[id].email) && h.ever <= n.ever;
      EmailsForLife(n, ops[1..], id);
    }
  }
}
