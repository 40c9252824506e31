/** The add-client page: its form validator and the two inserts its submit
    handler makes, a client and then the client's first move. */
module AddClient {
  import opened Wrappers
  import opened Seqs
  import opened Subscriptions
  import opened Auth
  import opened Client

  /** The form's values. */
  datatype ClientForm = ClientForm(
    firstName: string,
    lastName: string,
    email: string,
    phone: string,
    currentAddress: string,
    moveToAddress: string,
    moveDate: string,
    notes: Option<string>)

  datatype Field = FirstName | LastName | Email | Phone | CurrentAddress | MoveToAddress | MoveDate

  /** The fields `clientFormSchema` rejects. Each minimum is on the string's
      JavaScript length, in UTF-16 code units; whether the email is well
      formed is the parameter `emailValid` (the schema library decides it);
      notes are optional and never rejected. */
  function Invalid(f: ClientForm, emailValid: bool): (bad: set<Field>)
    ensures FirstName in bad <==> Utf16Length(f.firstName) < 2
    ensures LastName in bad <==> Utf16Length(f.lastName) < 2
    ensures Email in bad <==> !emailValid
    ensures Phone in bad <==> Utf16Length(f.phone) < 10
    ensures CurrentAddress in bad <==> Utf16Length(f.currentAddress) < 5
    ensures MoveToAddress in bad <==> Utf16Length(f.moveToAddress) < 5
    ensures MoveDate in bad <==> Utf16Length(f.moveDate) < 1
  {
    set x: Field | x in AllFields && Rejects(f, emailValid, x)
  }

  const AllFields: set<Field> := {FirstName, LastName, Email, Phone, CurrentAddress, MoveToAddress, MoveDate}

  /** Whether the schema's rule for field `x` fails. */
  predicate Rejects(f: ClientForm, emailValid: bool, x: Field) {
    match x
    case FirstName => Utf16Length(f.firstName) < 2
    case LastName => Utf16Length(f.lastName) < 2
    case Email => !emailValid
    case Phone => Utf16Length(f.phone) < 10
    case CurrentAddress => Utf16Length(f.currentAddress) < 5
    case MoveToAddress => Utf16Length(f.moveToAddress) < 5
    case MoveDate => Utf16Length(f.moveDate) < 1
  }

  /** The form is submitted only when no field is rejected. */
  predicate Valid(f: ClientForm, emailValid: bool) {
    Invalid(f, emailValid) == {}
  }

  /** The form passes exactly when every field reaches its minimum; a
      non-empty move date is enough for that field. */
  lemma ValidIff(f: ClientForm, emailValid: bool)
    ensures Valid(f, emailValid) <==>
      && Utf16Length(f.firstName) >= 2 && Utf16Length(f.lastName) >= 2 && emailValid
      && Utf16Length(f.phone) >= 10
      && Utf16Length(f.currentAddress) >= 5 && Utf16Length(f.moveToAddress) >= 5 && f.moveDate != []
  {
    if !Valid(f, emailValid) {
      var x :| x in Invalid(f, emailValid);
    } else {
      assert FirstName !in Invalid(f, emailValid);
    }
  }

  /** A first name of one character above U+FFFF (an emoji) has JavaScript
      length 2, so it meets the two-character minimum. */
  lemma AstralNamePasses(f: ClientForm, emailValid: bool)
    requires f.firstName == ['\U{1F600}']
    ensures FirstName !in Invalid(f, emailValid)
  {
    assert Utf16Length(f.firstName[1..]) == 0;
  }

  /** A row of `clients`. */
  datatype ClientRecord = ClientRecord(
    id: nat, userId: UserId, firstName: string, lastName: string,
    email: string, phone: string, address: string, notes: Option<string>)

  /** A row of `moves`; a client id the lookup does not find is null. */
  datatype MoveRecord = MoveRecord(
    clientId: Option<nat>, userId: UserId, fromAddress: string, toAddress: string,
    startDate: int, endDate: int, moveType: string, status: string, title: string)

  /** The client row the form describes. */
  function NewClient(id: nat, user: UserId, f: ClientForm): (c: ClientRecord)
    ensures c.userId == user && c.address == f.currentAddress && c.notes == f.notes
    ensures c.firstName == f.firstName && c.lastName == f.lastName
    ensures c.email == f.email && c.phone == f.phone
  {
    ClientRecord(id, user, f.firstName, f.lastName, f.email, f.phone, f.currentAddress, f.notes)
  }

  /** The move row: from the current to the new address, starting at the move
      date and ending a day later, residential, pending, titled after the
      client. */
  function NewMove(clientId: Option<nat>, user: UserId, f: ClientForm, start: int): (m: MoveRecord)
    ensures m.fromAddress == f.currentAddress && m.toAddress == f.moveToAddress
    ensures m.startDate == start && m.endDate == m.startDate + DayMs
    ensures m.moveType == "residential" && m.status == "pending"
    ensures m.title == "Move for " + f.firstName + " " + f.lastName
    ensures m.userId == user && m.clientId == clientId
  {
    MoveRecord(clientId, user, f.currentAddress, f.moveToAddress, start, start + DayMs,
               "residential", "pending", "Move for " + f.firstName + " " + f.lastName)
  }

  /** Number of clients of `user` with that first and last name. */
  function CountNamed(clients: seq<ClientRecord>, user: UserId, first: string, last: string): nat {
    if clients == [] then 0
    else (if clients[0].userId == user && clients[0].firstName == first && clients[0].lastName == last then 1 else 0)
         + CountNamed(clients[1..], user, first, last)
  }

  /** `.eq('user_id').eq('first_name').eq('last_name').single()` then
      `data?.id`: the id when exactly one client matches, else undefined. */
  function ClientIdOf(clients: seq<ClientRecord>, user: UserId, first: string, last: string): (id: Option<nat>)
    ensures id.Some? <==> CountNamed(clients, user, first, last) == 1
    ensures id.Some? ==> exists c :: c in clients && c.id == id.value && c.userId == user
                                     && c.firstName == first && c.lastName == last
  {
    if clients == [] then None
    else
      var rest := ClientIdOf(clients[1..], user, first, last);
      var c := clients[0];
      if c.userId == user && c.firstName == first && c.lastName == last then
        (if CountNamed(clients[1..], user, first, last) == 0 then Some(c.id) else None)
      else rest
  }

  /** A user's second client of the same name makes the lookup ambiguous, so
      that client's move is stored without a client. */
  lemma {:induction false} SameNameUnlinked(clients: seq<ClientRecord>, c: ClientRecord)
    requires exists i :: 0 <= i < |clients| && clients[i].userId == c.userId
                         && clients[i].firstName == c.firstName && clients[i].lastName == c.lastName
    ensures ClientIdOf(clients + [c], c.userId, c.firstName, c.lastName).None?
  {
    CountNamedAppend(clients, c, c.userId, c.firstName, c.lastName);
    CountNamedPositive(clients, c.userId, c.firstName, c.lastName);
  }

  /** A client whose name is new for the user is found by the lookup, so
      their move is linked to them. */
  lemma {:induction false} FreshNameLinked(clients: seq<ClientRecord>, c: ClientRecord)
    requires forall i :: 0 <= i < |clients| ==>
      !(clients[i].userId == c.userId && clients[i].firstName == c.firstName && clients[i].lastName == c.lastName)
    ensures ClientIdOf(clients + [c], c.userId, c.firstName, c.lastName) == Some(c.id)
  {
    if clients == [] {
      assert [c][1..] == [];
    } else {
      assert (clients + [c])[1..] == clients[1..] + [c];
      assert forall i :: 0 <= i < |clients[1..]| ==> clients[1..][i] == clients[i + 1];
      FreshNameLinked(clients[1..], c);
    }
  }

  lemma {:induction false} CountNamedAppend(clients: seq<ClientRecord>, c: ClientRecord,
                                            user: UserId, first: string, last: string)
    ensures CountNamed(clients + [c], user, first, last)
         == CountNamed(clients, user, first, last)
            + (if c.userId == user && c.firstName == first && c.lastName == last then 1 else 0)
  {
    if clients != [] {
      assert (clients + [c])[1..] == clients[1..] + [c];
      CountNamedAppend(clients[1..], c, user, first, last);
    }
  }

  lemma {:induction false} CountNamedPositive(clients: seq<ClientRecord>, user: UserId, first: string, last: string)
    requires exists i :: 0 <= i < |clients| && clients[i].userId == user
                         && clients[i].firstName == first && clients[i].lastName == last
    ensures CountNamed(clients, user, first, last) >= 1
  {
    var i :| 0 <= i < |clients| && clients[i].userId == user
             && clients[i].firstName == first && clients[i].lastName == last;
    if i > 0 {
      assert clients[1..][i - 1] == clients[i];
      CountNamedPositive(clients[1..], user, first, last);
    }
  }

  /** The `clients` and `moves` tables. */
  class ClientBook {
    var clients: seq<ClientRecord>
    var moves: seq<MoveRecord>
    var nextId: nat

    constructor ()
      ensures clients == [] && moves == []
    {
      clients := [];
      moves := [];
      nextId := 0;
    }

    /** `onSubmit` for a form that passed validation. `clientFault` and
        `moveFault` are errors from the two inserts, `lookupFault` an error
        from the client-id lookup; `moveStart` is the parsed move date, none
        when it is not a date (converting it then throws, after the client is
        inserted). Navigation to /clients happens only when both rows are in. */
    method Submit(f: ClientForm, user: Option<User>, clientFault: bool, lookupFault: bool,
                  moveStart: Option<int>, moveFault: bool) returns (steps: seq<Effect>)
      modifies this
      ensures user.None? || clientFault ==> clients == old(clients) && moves == old(moves)
      ensures user.Some? && !clientFault ==>
        clients == old(clients) + [NewClient(old(nextId), user.value.id, f)]
      ensures moves == if user.None? || clientFault || moveStart.None? || moveFault then old(moves)
                       else old(moves) + [NewMove(if lookupFault then None else ClientIdOf(clients, user.value.id, f.firstName, f.lastName),
                                                  user.value.id, f, moveStart.value)]
      ensures Navigate("/clients") in steps <==> |moves| == |old(moves)| + 1
      ensures Navigate("/clients") in steps <==> user.Some? && !clientFault && moveStart.Some? && !moveFault
      ensures |steps| >= 2 && steps[0] == LookUpUser
    {
      steps := [LookUpUser];
      if user.None? {
        return steps + [Toast(Failure)];
      }
      if clientFault {
        return steps + [Toast(Failure)];
      }
      clients := clients + [NewClient(nextId, user.value.id, f)];
      nextId := nextId + 1;
      var clientId := if lookupFault then None else ClientIdOf(clients, user.value.id, f.firstName, f.lastName);
      if moveStart.None? {
        return steps + [Toast(Failure)];
      }
      if moveFault {
        return steps + [Toast(Failure)];
      }
      moves := moves + [NewMove(clientId, user.value.id, f, moveStart.value)];
      steps := steps + [Toast(Success), Navigate("/clients")];
    }
  }
}
