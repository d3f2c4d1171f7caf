/** The user table: what registration, removal and authentication check and write, each request by itself. */
module UserAccounts {
  import opened Options

  datatype UserRow = UserRow(username: string, networkName: string, salt: string, password: string, roles: string, email: string)

  /** A request; an empty text is a missing field, and an empty `requestUserId` means an internal call. */
  datatype Request = Request(user: string, password: string, network: string, requestUserId: string, roles: string, email: string)

  datatype NetworkConfig = NetworkConfig(enableAuthentication: bool, adminUser: Option<string>)

  /** The configured networks, `bcrypt.hashSync`, and the model's own validation of a new row. */
  datatype Setup = Setup(networks: map<string, NetworkConfig>, hash: (string, string) -> string, accepts: UserRow -> bool)

  datatype Op = Register(req: Request, salt: string) | Unregister(req: Request)

  type Table = seq<UserRow>

  // --------------------------------------------------------------- the table

  predicate IsKey(r: UserRow, user: string, network: string) {
    r.username == user && r.networkName == network
  }

  /** `findOne`. */
  function Find(table: Table, user: string, network: string): Option<UserRow> {
    if table == [] then None
    else if IsKey(table[0], user, network) then Some(table[0])
    else Find(table[1..], user, network)
  }

  /** `destroy`: every row with the key goes. */
  function Without(table: Table, user: string, network: string): Table {
    if table == [] then []
    else (if IsKey(table[0], user, network) then [] else [table[0]]) + Without(table[1..], user, network)
  }

  /** The rows of one network. */
  function OfNetwork(table: Table, network: string): Table {
    if table == [] then []
    else (if table[0].networkName == network then [table[0]] else []) + OfNetwork(table[1..], network)
  }

  /** No two rows have the key. */
  ghost predicate StoredOnce(table: Table, user: string, network: string) {
    forall i, j :: 0 <= i < j < |table| && IsKey(table[i], user, network) ==> !IsKey(table[j], user, network)
  }

  // ------------------------------------------------------------ what is meant

  /** `isAdminRole`; absent when the requester does not exist. */
  function AdminRole(table: Table, req: Request): Option<bool> {
    if req.requestUserId == "" then Some(true)
    else
      match Find(table, req.requestUserId, req.network)
      case None => None
      case Some(r) => Some(r.roles == "admin")
  }

  function NewRow(setup: Setup, req: Request, salt: string): UserRow {
    UserRow(req.user, req.network, salt, setup.hash(req.password, salt), req.roles, req.email)
  }

  /** The checks of `register` before the insert. */
  predicate MayRegister(setup: Setup, table: Table, req: Request) {
    req.user != "" && req.password != "" && req.network != ""
    && AdminRole(table, req) == Some(true)
    && Find(table, req.user, req.network).None?
  }

  predicate IsRoot(setup: Setup, user: string, network: string) {
    network in setup.networks && setup.networks[network].adminUser == Some(user)
  }

  /** The checks of `unregister` before the removal. */
  predicate MayUnregister(setup: Setup, table: Table, req: Request) {
    req.user != "" && req.network != ""
    && AdminRole(table, req) == Some(true)
    && req.user != req.requestUserId
    && req.network in setup.networks && !IsRoot(setup, req.user, req.network)
    && Find(table, req.user, req.network).Some?
  }

  predicate Succeeds(setup: Setup, table: Table, op: Op) {
    match op
    case Register(req, salt) => MayRegister(setup, table, req) && setup.accepts(NewRow(setup, req, salt))
    case Unregister(req) => MayUnregister(setup, table, req)
  }

  function Apply(setup: Setup, table: Table, op: Op): Table {
    if !Succeeds(setup, table, op) then table
    else
      match op
      case Register(req, salt) => table + [NewRow(setup, req, salt)]
      case Unregister(req) => Without(table, req.user, req.network)
  }

  /** `authenticate`. */
  predicate Authenticates(setup: Setup, table: Table, user: string, password: string, network: string) {
    user != "" && password != "" && network != "" && network in setup.networks &&
    (!setup.networks[network].enableAuthentication ||
     match Find(table, user, network)
     case None => false
     case Some(r) => setup.hash(password, r.salt) == r.password)
  }

  // --------------------------------------------------------------- services

  class UserDataService {
    const setup: Setup
    var rows: Table

    constructor (setup: Setup)
      ensures this.setup == setup && rows == []
    {
      this.setup, rows := setup, [];
    }

    method FindUser(username: string, networkName: string) returns (entry: Option<UserRow>)
      ensures entry == Find(rows, username, networkName)
    {
      entry := Find(rows, username, networkName);
    }

    method RegisterUser(row: UserRow) returns (created: bool)
      modifies this
      ensures created == setup.accepts(row)
      ensures rows == if created then old(rows) + [row] else old(rows)
    {
      created := setup.accepts(row);
      if created {
        rows := rows + [row];
      }
    }

    method UnregisterUser(username: string, networkName: string)
      modifies this
      ensures rows == Without(old(rows), username, networkName)
    {
      rows := Without(rows, username, networkName);
    }
  }

  class UserService {
    const userDataService: UserDataService

    constructor (userDataService: UserDataService)
      ensures this.userDataService == userDataService
    {
      this.userDataService := userDataService;
    }

    method IsAdminRole(req: Request) returns (admin: Option<bool>)
      ensures admin == AdminRole(userDataService.rows, req)
    {
      if req.requestUserId == "" {
        return Some(true);
      }
      var userEntry := userDataService.FindUser(req.requestUserId, req.network);
      admin := if userEntry.None? then None else Some(userEntry.value.roles == "admin");
    }

    /** Status 200 and one new row when every check passes and the model accepts the row; otherwise 400
        and the table as it was. */
    method Register(req: Request, salt: string) returns (status: int)
      modifies userDataService
      ensures status == if Succeeds(userDataService.setup, old(userDataService.rows), Op.Register(req, salt)) then 200 else 400
      ensures userDataService.rows == Apply(userDataService.setup, old(userDataService.rows), Op.Register(req, salt))
    {
      if req.user == "" || req.password == "" || req.network == "" {
        return 400;
      }
      var admin := IsAdminRole(req);
      if admin != Some(true) {
        return 400;
      }
      var userEntry := userDataService.FindUser(req.user, req.network);
      if userEntry.Some? {
        return 400;
      }
      var hashedPassword := userDataService.setup.hash(req.password, salt);
      var created := userDataService.RegisterUser(UserRow(req.user, req.network, salt, hashedPassword, req.roles, req.email));
      status := if created then 200 else 400;
    }

    method Unregister(req: Request) returns (status: int)
      modifies userDataService
      ensures status == if Succeeds(userDataService.setup, old(userDataService.rows), Op.Unregister(req)) then 200 else 400
      ensures userDataService.rows == Apply(userDataService.setup, old(userDataService.rows), Op.Unregister(req))
    {
      var setup := userDataService.setup;
      if req.user == "" || req.network == "" {
        return 400;
      }
      var admin := IsAdminRole(req);
      if admin != Some(true) || req.user == req.requestUserId {
        return 400;
      }
      if req.network !in setup.networks || setup.networks[req.network].adminUser == Some(req.user) {
        return 400;
      }
      var userEntry := userDataService.FindUser(req.user, req.network);
      if userEntry.None? {
        return 400;
      }
      userDataService.UnregisterUser(req.user, req.network);
      status := 200;
    }

    /** With authentication enabled, a key stored once logs in exactly when the table has a row of it whose
        salted hash the password gives; without, anyone does who names user, password and network. */
    method Authenticate(user: string, password: string, network: string) returns (ok: bool)
      ensures ok == Authenticates(userDataService.setup, userDataService.rows, user, password, network)
      ensures user == "" || password == "" || network == "" || network !in userDataService.setup.networks ==> !ok
      ensures user != "" && password != "" && network != "" && network in userDataService.setup.networks ==>
                (!userDataService.setup.networks[network].enableAuthentication ==> ok)
                && (userDataService.setup.networks[network].enableAuthentication
                    && StoredOnce(userDataService.rows, user, network) ==>
                      (ok <==> exists r <- userDataService.rows :: IsKey(r, user, network) && userDataService.setup.hash(password, r.salt) == r.password))
    {
      var setup := userDataService.setup;
      if user == "" || password == "" || network == "" {
        return false;
      }
      if network !in setup.networks {
        return false;
      }
      if !setup.networks[network].enableAuthentication {
        return true;
      }
      var userEntry := userDataService.FindUser(user, network);
      FoundOnce(userDataService.rows, user, network);
      if userEntry.None? {
        return false;
      }
      ok := userEntry.value.password == setup.hash(password, userEntry.value.salt);
    }
  }

  // ------------------------------------------------------------- table facts

  lemma {:induction false} FindFacts(table: Table, user: string, network: string)
    ensures Find(table, user, network).Some? <==> exists r <- table :: IsKey(r, user, network)
    ensures Find(table, user, network).Some? ==>
              Find(table, user, network).value in table && IsKey(Find(table, user, network).value, user, network)
  {
    if table != [] {
      FindFacts(table[1..], user, network);
      assert table == [table[0]] + table[1..];
    }
  }

  /** The row found is the only row of a key that is stored once. */
  lemma FoundOnce(table: Table, user: string, network: string)
    ensures Find(table, user, network).Some? <==> exists r <- table :: IsKey(r, user, network)
    ensures StoredOnce(table, user, network) ==>
              forall r <- table | IsKey(r, user, network) :: Find(table, user, network) == Some(r)
  {
    FindFacts(table, user, network);
    if StoredOnce(table, user, network) {
      forall r | r in table && IsKey(r, user, network)
        ensures Find(table, user, network) == Some(r)
      {
        var found := Find(table, user, network).value;
        var i :| 0 <= i < |table| && table[i] == r;
        var k :| 0 <= k < |table| && table[k] == found;
      }
    }
  }

  lemma {:induction false} FindAfterAppend(table: Table, r: UserRow, user: string, network: string)
    ensures Find(table + [r], user, network)
         == if Find(table, user, network).Some? then Find(table, user, network)
            else if IsKey(r, user, network) then Some(r) else None
  {
    if table == [] {
      assert table + [r] == [r];
    } else {
      FindAfterAppend(table[1..], r, user, network);
      assert (table + [r])[1..] == table[1..] + [r];
    }
  }

  lemma {:induction false} FindAfterWithout(table: Table, gone: string, from: string, user: string, network: string)
    ensures Find(Without(table, gone, from), user, network)
         == if user == gone && network == from then None else Find(table, user, network)
  {
    if table != [] {
      FindAfterWithout(table[1..], gone, from, user, network);
      var rest := Without(table[1..], gone, from);
      if !IsKey(table[0], gone, from) {
        assert Without(table, gone, from)[1..] == rest;
      } else {
        assert Without(table, gone, from) == rest;
      }
    }
  }

  lemma {:induction false} WithoutElements(table: Table, user: string, network: string)
    ensures forall r :: r in Without(table, user, network) <==> r in table && !IsKey(r, user, network)
  {
    if table != [] {
      WithoutElements(table[1..], user, network);
      assert table == [table[0]] + table[1..];
    }
  }

  lemma {:induction false} WithoutKeepsOnce(table: Table, gone: string, from: string, user: string, network: string)
    requires StoredOnce(table, user, network)
    ensures StoredOnce(Without(table, gone, from), user, network)
  {
    if table != [] {
      assert StoredOnce(table[1..], user, network);
      WithoutKeepsOnce(table[1..], gone, from, user, network);
      WithoutElements(table[1..], gone, from);
      if IsKey(table[0], user, network) {
        forall r | r in Without(table[1..], gone, from)
          ensures !IsKey(r, user, network)
        {
          var k :| 0 <= k < |table[1..]| && table[1..][k] == r;
          assert table[k + 1] == r;
        }
      }
    }
  }

  lemma {:induction false} OfNetworkAppend(table: Table, r: UserRow, network: string)
    ensures OfNetwork(table + [r], network) == OfNetwork(table, network) + (if r.networkName == network then [r] else [])
  {
    if table == [] {
      assert table + [r] == [r];
    } else {
      OfNetworkAppend(table[1..], r, network);
      assert (table + [r])[1..] == table[1..] + [r];
    }
  }

  lemma {:induction false} OfNetworkWithout(table: Table, user: string, from: string, network: string)
    requires from != network
    ensures OfNetwork(Without(table, user, from), network) == OfNetwork(table, network)
  {
    if table != [] {
      OfNetworkWithout(table[1..], user, from, network);
      var rest := Without(table[1..], user, from);
      if !IsKey(table[0], user, from) {
        assert Without(table, user, from)[1..] == rest;
      } else {
        assert Without(table, user, from) == rest;
      }
    }
  }

  /** Inserting a row keeps its key stored once exactly when the key is absent at that moment. */
  lemma InsertKeepsOnceIff(table: Table, r: UserRow)
    requires StoredOnce(table, r.username, r.networkName)
    ensures StoredOnce(table + [r], r.username, r.networkName) <==> Find(table, r.username, r.networkName).None?
  {
    FindFacts(table, r.username, r.networkName);
    if q :| q in table && IsKey(q, r.username, r.networkName) {
      var i :| 0 <= i < |table| && table[i] == q;
      assert (table + [r])[i] == q && (table + [r])[|table|] == r;
    }
  }
}
