/** Tenants and their members: `Company`, whose name and slug are each
    unique, and `CustomUser`, which belongs to exactly one company. */
module Tenancy {
  import opened Base
  import opened Models

  /** Some stored company already has this name or this slug. */
  predicate CompanyTaken(companies: map<Id, Company>, name: string, slug: string) {
    exists id :: id in companies && (companies[id].name == name || companies[id].slug == slug)
  }

  /** `Company.objects.create`: the UNIQUE constraints on `name` and `slug`
      refuse a second company with either value. */
  function CreateCompany(s: Store, name: string, slug: string): (r: Result<(Store, Id)>)
    requires Fresh(s)
    ensures r.Success? <==> !CompanyTaken(s.companies, name, slug)
    ensures r.Failure? ==> r.error == IntegrityError
  {
    if CompanyTaken(s.companies, name, slug) then Failure(IntegrityError)
    else Success((s.(companies := s.companies[s.nextId := Company(name, slug)], nextId := s.nextId + 1), s.nextId))
  }

  /** The new company is stored under a fresh key and nothing else changes. */
  lemma CompanyCreated(s: Store, name: string, slug: string, s': Store, id: Id)
    requires Fresh(s) && CreateCompany(s, name, slug) == Success((s', id))
    ensures id !in s.companies && s'.companies == s.companies[id := Company(name, slug)]
    ensures s'.(companies := s.companies, nextId := s.nextId) == s
  {
  }

  /** Creating a company keeps names and slugs unique: the check against
      every stored company is exactly what uniqueness needs. */
  lemma CreateCompanyKeepsUnique(s: Store, name: string, slug: string, s': Store, id: Id)
    requires Fresh(s) && CompaniesUnique(s.companies)
    requires CreateCompany(s, name, slug) == Success((s', id))
    ensures CompaniesUnique(s'.companies)
  {
    forall a, b | a in s'.companies && b in s'.companies && a != b
      ensures s'.companies[a].name != s'.companies[b].name && s'.companies[a].slug != s'.companies[b].slug
    {
      if a == id {
        assert b in s.companies;
      } else if b == id {
        assert a in s.companies;
      }
    }
  }

  lemma CreateCompanyKeepsValid(s: Store, name: string, slug: string, s': Store, id: Id)
    requires Valid(s) && CreateCompany(s, name, slug) == Success((s', id))
    ensures Valid(s')
  {
    CreateCompanyKeepsUnique(s, name, slug, s', id);
    CompanyAddedLinked(s, s.nextId, Company(name, slug));
  }

  /** Adding a company keeps every reference to a company valid. */
  lemma CompanyAddedLinked(s: Store, id: Id, c: Company)
    requires Linked(s)
    ensures Linked(s.(companies := s.companies[id := c], nextId := s.nextId + 1))
  {
    var s' := s.(companies := s.companies[id := c], nextId := s.nextId + 1);
    assert s.companies.Keys <= s'.companies.Keys;
  }

  /** Some stored user already has this username. */
  predicate UsernameTaken(users: map<Id, CustomUser>, username: string) {
    exists id :: id in users && users[id].username == username
  }

  /** `CustomUser.objects.create`: the username is unique (inherited from the
      auth framework's user), the company is a non-null foreign key that must
      name a stored company, and the role defaults to STAFF. */
  function CreateUser(s: Store, username: string, company: Id, role: Option<Role>): (r: Result<(Store, Id)>)
    requires Fresh(s)
    ensures r.Success? <==> !UsernameTaken(s.users, username) && company in s.companies
    ensures r.Failure? ==> r.error == IntegrityError
  {
    if UsernameTaken(s.users, username) || company !in s.companies then Failure(IntegrityError)
    else Success((s.(users := s.users[s.nextId := CustomUser(username, company, role.GetOr(Staff))],
                     nextId := s.nextId + 1), s.nextId))
  }

  /** The new user belongs to the given company, has role STAFF unless one is
      given, and nothing else changes. */
  lemma UserCreated(s: Store, username: string, company: Id, role: Option<Role>, s': Store, id: Id)
    requires Fresh(s) && CreateUser(s, username, company, role) == Success((s', id))
    ensures id !in s.users && s'.users.Keys == s.users.Keys + {id}
    ensures forall u :: u in s.users ==> s'.users[u] == s.users[u]
    ensures s'.users[id].username == username && s'.users[id].company == company
    ensures s'.users[id].role == (if role.Some? then role.value else Staff)
    ensures s'.(users := s.users, nextId := s.nextId) == s
  {
  }

  /** Creating a user keeps usernames unique. */
  lemma CreateUserKeepsUnique(s: Store, username: string, company: Id, role: Option<Role>, s': Store, id: Id)
    requires Fresh(s) && UsernamesUnique(s.users)
    requires CreateUser(s, username, company, role) == Success((s', id))
    ensures UsernamesUnique(s'.users)
  {
    forall a, b | a in s'.users && b in s'.users && a != b
      ensures s'.users[a].username != s'.users[b].username
    {
      if a == id {
        assert b in s.users;
      } else if b == id {
        assert a in s.users;
      }
    }
  }

  /** The username check is needed: storing a user whose username is taken
      would break uniqueness. */
  lemma TakenUsernameBreaksUnique(users: map<Id, CustomUser>, id: Id, u: CustomUser)
    requires id !in users && UsernameTaken(users, u.username)
    ensures !UsernamesUnique(users[id := u])
  {
    var other :| other in users && users[other].username == u.username;
    assert users[id := u][other].username == users[id := u][id].username;
  }

  lemma CreateUserKeepsValid(s: Store, username: string, company: Id, role: Option<Role>, s': Store, id: Id)
    requires Valid(s) && CreateUser(s, username, company, role) == Success((s', id))
    ensures Valid(s')
  {
  }
}
