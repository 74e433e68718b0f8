/**
 * The backend's login and signup routes over the doctor collection. The
 * collection is a sequence in insertion order; `findOne` returns the first
 * match. Login looks the doctor up by e-mail only; signup refuses a known
 * e-mail and otherwise inserts a pending doctor. The clock reading that
 * names a new doctor is a parameter.
 */
module AuthRoutes {
  import opened Wrappers
  import AuthMiddleware

  datatype Doctor = Doctor(id: string, fullName: string, email: string, phone: string, status: string)

  /** A reply: the HTTP status, and either an error message or the user with a token. */
  datatype Reply = Failure(status: int, message: string) | Success(status: int, user: Doctor, token: string)

  /** `Doctor.findOne({ email })`: the first doctor with the e-mail, None when there is none. */
  function FindByEmail(doctors: seq<Doctor>, email: string): (r: Option<Doctor>)
    ensures r.None? <==> forall i :: 0 <= i < |doctors| ==> doctors[i].email != email
    ensures r.Some? ==> r.value in doctors && r.value.email == email
    ensures r.Some? ==> (r.value.email == email
      && exists k :: 0 <= k < |doctors| && doctors[k] == r.value && forall j :: 0 <= j < k ==> doctors[j].email != email)
  {
    if doctors == [] then None
    else if doctors[0].email == email then
      Some(doctors[0])
    else
      var r := FindByEmail(doctors[1..], email);
      if r.Some? then
        var k :| 0 <= k < |doctors[1..]| && doctors[1..][k] == r.value
          && forall j :: 0 <= j < k ==> doctors[1..][j].email != email;
        assert doctors[k + 1] == r.value;
        assert forall j :: 0 <= j < k + 1 ==> doctors[j].email != email;
        r
      else r
  }

  /** Appending a doctor with a new e-mail makes that doctor the one found for it. */
  lemma {:induction false} FindAppended(doctors: seq<Doctor>, d: Doctor)
    requires FindByEmail(doctors, d.email).None?
    ensures FindByEmail(doctors + [d], d.email) == Some(d)
  {
    var s := doctors + [d];
    var r := FindByEmail(s, d.email);
    assert s[|doctors|].email == d.email;
    forall j | 0 <= j < |doctors|
      ensures s[j].email != d.email
    {
      assert s[j] == doctors[j];
    }
    var k :| 0 <= k < |s| && s[k] == r.value && forall j :: 0 <= j < k ==> s[j].email != d.email;
    assert k == |doctors|;
  }

  /** The login reply for an e-mail; the password is never looked at. */
  function LoginReply(doctors: seq<Doctor>, email: string): (r: Reply)
    ensures r.Failure? <==> FindByEmail(doctors, email).None?
    ensures r.Failure? ==> r.status == 401 && r.message == "Invalid credentials"
    ensures r.Success? ==> (r.status == 200 && r.user.email == email && r.user in doctors
      && AuthMiddleware.Authenticate(Some(AuthMiddleware.BearerHeader(r.token))) == AuthMiddleware.Next(r.user.id))
  {
    match FindByEmail(doctors, email)
    case None => Failure(401, "Invalid credentials")
    case Some(u) =>
      AuthMiddleware.TokenRoundTrip(u.id);
      Success(200, u, AuthMiddleware.MintToken(u.id))
  }

  predicate EmailsUnique(doctors: seq<Doctor>) {
    forall i, j :: 0 <= i < j < |doctors| ==> doctors[i].email != doctors[j].email
  }

  predicate IdsUnique(doctors: seq<Doctor>) {
    forall i, j :: 0 <= i < j < |doctors| ==> doctors[i].id != doctors[j].id
  }

  /** The doctor collection. */
  class DoctorStore {
    var doctors: seq<Doctor>

    /** The `id` index is unique; signup also keeps e-mails unique, as it refuses a known one. */
    predicate Valid()
      reads this
    {
      IdsUnique(doctors) && EmailsUnique(doctors)
    }

    constructor(seed: seq<Doctor>)
      requires IdsUnique(seed) && EmailsUnique(seed)
      ensures Valid() && doctors == seed
    {
      doctors := seed;
    }

    /** `POST /auth/login`: reads the collection and changes nothing; the password plays no part. */
    method Login(email: string, password: string) returns (reply: Reply)
      ensures reply == LoginReply(doctors, email)
    {
      reply := LoginReply(doctors, email);
    }

    /**
     * `POST /auth/signup`: 400 for a known e-mail; otherwise a pending doctor
     * named `'doctor-' + stamp` is saved and 201 returned with its token; a
     * save refused by the unique id index answers 500 and saves nothing.
     */
    method Signup(email: string, password: string, fullName: string, phone: string, stamp: string)
      returns (reply: Reply)
      requires Valid()
      modifies this
      ensures Valid()
      ensures FindByEmail(old(doctors), email).Some? ==>
        reply == Failure(400, "User already exists") && doctors == old(doctors)
      ensures FindByEmail(old(doctors), email).None? && (exists i :: 0 <= i < |old(doctors)| && old(doctors)[i].id == "doctor-" + stamp) ==>
        reply == Failure(500, "Server error") && doctors == old(doctors)
      ensures reply.Success? ==>
        reply.status == 201
        && reply.user == Doctor("doctor-" + stamp, fullName, email, phone, "pending")
        && doctors == old(doctors) + [reply.user]
        && reply.token == AuthMiddleware.MintToken(reply.user.id)
        && LoginReply(doctors, email) == Success(200, reply.user, reply.token)
      ensures reply.Failure? ==> doctors == old(doctors)
      ensures reply.Success? <==> (FindByEmail(old(doctors), email).None?
        && forall i :: 0 <= i < |old(doctors)| ==> old(doctors)[i].id != "doctor-" + stamp)
    {
      if FindByEmail(doctors, email).Some? {
        return Failure(400, "User already exists");
      }
      var id := "doctor-" + stamp;
      if exists i :: 0 <= i < |doctors| && doctors[i].id == id {
        return Failure(500, "Server error");
      }
      var d := Doctor(id, fullName, email, phone, "pending");
      FindAppended(doctors, d);
      doctors := doctors + [d];
      reply := Success(201, d, AuthMiddleware.MintToken(id));
    }
  }
}
