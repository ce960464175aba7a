/**
 * The two client sign-in forms: one identifies the client by prefix, the
 * other by name. Both reject blank fields before any lookup, then take the
 * first client, in list order, whose identifier matches case-insensitively
 * and whose password matches exactly. The client list fetched from the
 * backend is a parameter.
 */
module ClientAuth {
  import opened Seqs
  import opened Text
  import opened Types

  datatype LoginResult =
    | BlankFields                      // "fill in all fields": nothing looked up
    | NoMatch                          // wrong identifier or password: `onLogin` not called
    | LoggedIn(id: string, name: string) // `onLogin(client.id, client.name)`

  datatype Identifier = ByPrefix | ByName

  function IdentifierOf(c: Client, field: Identifier): string {
    if field == ByPrefix then c.prefix else c.name
  }

  /** The `find` test, with `key` the lower-cased identifier typed. */
  predicate Matches(c: Client, field: Identifier, key: string, password: string) {
    Lower(IdentifierOf(c, field)) == key && c.password == password
  }

  /** The sign-in decision. The trimmed fields are used only for the blank
      check; the lookup compares the fields as typed. */
  function Login(clients: seq<Client>, field: Identifier, ident: string, password: string): (r: LoginResult)
    ensures r == BlankFields <==> IsBlank(ident) || IsBlank(password)
    ensures r.LoggedIn? ==>
              exists i :: 0 <= i < |clients| &&
                Matches(clients[i], field, Lower(ident), password) &&
                r == LoggedIn(clients[i].id, clients[i].name) &&
                forall j :: 0 <= j < i ==> !Matches(clients[j], field, Lower(ident), password)
    ensures r == NoMatch <==>
              !IsBlank(ident) && !IsBlank(password) &&
              forall i :: 0 <= i < |clients| ==> !Matches(clients[i], field, Lower(ident), password)
  {
    if IsBlank(ident) || IsBlank(password) then BlankFields
    else match FindFirst(clients, (c: Client) => Matches(c, field, Lower(ident), password))
      case None => NoMatch
      case Some(i) => LoggedIn(clients[i].id, clients[i].name)
  }

  /** The prefix form: a client matches when its prefix equals the typed prefix
      ignoring case and its password equals the typed password. */
  function PrefixLogin(clients: seq<Client>, prefix: string, password: string): (r: LoginResult)
    ensures r == BlankFields <==> IsBlank(prefix) || IsBlank(password)
    ensures r.LoggedIn? ==>
              exists i :: 0 <= i < |clients| &&
                Lower(clients[i].prefix) == Lower(prefix) && clients[i].password == password &&
                r == LoggedIn(clients[i].id, clients[i].name) &&
                forall j :: 0 <= j < i ==>
                  !(Lower(clients[j].prefix) == Lower(prefix) && clients[j].password == password)
    ensures r == NoMatch <==>
              !IsBlank(prefix) && !IsBlank(password) &&
              forall i :: 0 <= i < |clients| ==>
                !(Lower(clients[i].prefix) == Lower(prefix) && clients[i].password == password)
  {
    Login(clients, ByPrefix, prefix, password)
  }

  /** The name form: the same rule with the client's name as identifier. */
  function NameLogin(clients: seq<Client>, name: string, password: string): (r: LoginResult)
    ensures r == BlankFields <==> IsBlank(name) || IsBlank(password)
    ensures r.LoggedIn? ==>
              exists i :: 0 <= i < |clients| &&
                Lower(clients[i].name) == Lower(name) && clients[i].password == password &&
                r == LoggedIn(clients[i].id, clients[i].name) &&
                forall j :: 0 <= j < i ==>
                  !(Lower(clients[j].name) == Lower(name) && clients[j].password == password)
    ensures r == NoMatch <==>
              !IsBlank(name) && !IsBlank(password) &&
              forall i :: 0 <= i < |clients| ==>
                !(Lower(clients[i].name) == Lower(name) && clients[i].password == password)
  {
    Login(clients, ByName, name, password)
  }

  /** The identifier is compared ignoring case: typing it in capitals changes
      nothing. */
  lemma IdentifierIgnoresCase(clients: seq<Client>, field: Identifier, ident: string, password: string)
    ensures Login(clients, field, Upper(ident), password) == Login(clients, field, ident, password)
  {
    LowerOfUpper(ident);
    UpperKeepsBlank(ident);
  }

  /** The password is compared as typed, not trimmed: when no client's stored
      password ends in a space, the password `p` followed by a space signs no
      one in, even though it trims to `p`; and `p` itself signs in whenever a
      client's identifier and password match it. */
  lemma PasswordComparedAsTyped(clients: seq<Client>, field: Identifier, ident: string, p: string)
    requires forall i :: 0 <= i < |clients| ==> clients[i].password != p + " "
    ensures !Login(clients, field, ident, p + " ").LoggedIn?
    ensures Trim(p + " ") == Trim(p)
    ensures !IsBlank(ident) && !IsBlank(p) &&
            (exists i :: 0 <= i < |clients| && Matches(clients[i], field, Lower(ident), p)) ==>
              Login(clients, field, ident, p).LoggedIn?
  {
    TrimTrailingSpace(p);
  }

  lemma NotBlank(s: string, i: nat)
    requires i < |s| && !IsSpace(s[i])
    ensures !IsBlank(s)
  {
    BlankIffAllSpace(s);
  }
}
