/** The state of the App component (App.tsx): who is signed in, the ledger,
    whether the entry form is open, and the two sign-in fields. The
    browser's local storage is kept as two ghost fields; `None` means the
    key is absent. */
module App {
  import opened Types
  import opened Stats

  /** A form entry completed with an id becomes a ledger record (App.tsx:57-60). */
  function WithId(data: Entry, id: string): (t: Transaction)
    ensures t.id == id
    ensures Entry(t.amount, t.kind, t.category, t.date, t.createdAt, t.note) == data
  {
    Transaction(id, data.amount, data.kind, data.category, data.date, data.createdAt, data.note)
  }

  class AppState {
    var user: Option<User>
    var transactions: seq<Transaction>
    var isFormOpen: bool
    var authName: string
    var authEmail: string

    /** Stored user (utils/storage.ts:15-21). */
    ghost var savedUser: Option<User>
    /** Stored ledger (utils/storage.ts:8-14). */
    ghost var savedTransactions: Option<seq<Transaction>>

    /** Storage mirrors the state once the save effect of App.tsx:38-40 has run. */
    ghost predicate Synced()
      reads this
    {
      savedUser == user && savedTransactions == Some(transactions)
    }

    /** Start-up: user and ledger are read from storage, a missing ledger
        reads as empty, and the save effect then stores the ledger
        (App.tsx:17-22, 38-40). */
    constructor (storedUser: Option<User>, storedTransactions: Option<seq<Transaction>>)
      ensures user == storedUser
      ensures transactions == (if storedTransactions.Some? then storedTransactions.value else [])
      ensures !isFormOpen && authName == "" && authEmail == ""
      ensures Synced()
    {
      user := storedUser;
      transactions := if storedTransactions.Some? then storedTransactions.value else [];
      isFormOpen := false;
      authName := "";
      authEmail := "";
      savedUser := storedUser;
      savedTransactions := Some(transactions);
    }

    /** Typing in the name field (App.tsx:100). */
    method SetAuthName(name: string)
      modifies this
      ensures authName == name
      ensures user == old(user) && transactions == old(transactions) && isFormOpen == old(isFormOpen)
      ensures authEmail == old(authEmail)
      ensures savedUser == old(savedUser) && savedTransactions == old(savedTransactions)
    {
      authName := name;
    }

    /** Typing in the e-mail field (App.tsx:111). */
    method SetAuthEmail(email: string)
      modifies this
      ensures authEmail == email
      ensures user == old(user) && transactions == old(transactions) && isFormOpen == old(isFormOpen)
      ensures authName == old(authName)
      ensures savedUser == old(savedUser) && savedTransactions == old(savedTransactions)
    {
      authEmail := email;
    }

    /** Sign-in (App.tsx:42-48): with an empty name or e-mail nothing
        happens; otherwise the user becomes that name and e-mail, and is
        stored. The ledger is not touched: every user sees the same records. */
    method HandleLogin()
      requires Synced()
      modifies this
      ensures Synced()
      ensures old(authName) == "" || old(authEmail) == "" ==> user == old(user)
      ensures old(authName) != "" && old(authEmail) != "" ==>
        user == Some(User(old(authName), None, old(authEmail), None, None))
      ensures transactions == old(transactions) && isFormOpen == old(isFormOpen)
      ensures authName == old(authName) && authEmail == old(authEmail)
    {
      if authName == "" || authEmail == "" {
        return;
      }
      var newUser := User(authName, None, authEmail, None, None);
      user := Some(newUser);
      savedUser := Some(newUser);
    }

    /** Sign-out (App.tsx:50-54): storage is cleared, the user and the ledger
        are emptied, and the save effect then stores the empty ledger. */
    method HandleLogout()
      requires Synced()
      modifies this
      ensures Synced()
      ensures user == None && transactions == []
      ensures savedUser == None && savedTransactions == Some([])
      ensures isFormOpen == old(isFormOpen)
      ensures authName == old(authName) && authEmail == old(authEmail)
    {
      savedUser := None;
      savedTransactions := None;
      user := None;
      transactions := [];
      savedTransactions := Some(transactions);
    }

    /** Saving a form entry (App.tsx:56-63): the new record, with the id the
        caller drew, goes in front of the ledger, the older records follow
        unchanged and in order, and the form closes. The id is not checked
        for uniqueness. */
    method AddTransaction(data: Entry, id: string)
      requires Synced()
      modifies this
      ensures Synced()
      ensures transactions == [WithId(data, id)] + old(transactions)
      ensures |transactions| == |old(transactions)| + 1
      ensures transactions[0].id == id && transactions[1..] == old(transactions)
      ensures !isFormOpen
      ensures user == old(user) && authName == old(authName) && authEmail == old(authEmail)
    {
      var newTransaction := WithId(data, id);
      transactions := [newTransaction] + transactions;
      isFormOpen := false;
      savedTransactions := Some(transactions);
    }

    /** Deleting by id (App.tsx:65-67): every record with that id goes, the
        rest keep their order. */
    method DeleteTransaction(id: string)
      requires Synced()
      modifies this
      ensures Synced()
      ensures transactions == Without(old(transactions), id)
      ensures forall t :: t in transactions <==> t in old(transactions) && t.id != id
      ensures isFormOpen == old(isFormOpen)
      ensures user == old(user) && authName == old(authName) && authEmail == old(authEmail)
    {
      WithoutMembers(transactions, id);
      transactions := Without(transactions, id);
      savedTransactions := Some(transactions);
    }

    /** The floating add button (App.tsx:310). */
    method OpenForm()
      modifies this
      ensures isFormOpen
      ensures user == old(user) && transactions == old(transactions)
      ensures authName == old(authName) && authEmail == old(authEmail)
      ensures savedUser == old(savedUser) && savedTransactions == old(savedTransactions)
    {
      isFormOpen := true;
    }

    /** The form's close button (App.tsx:319). */
    method CloseForm()
      modifies this
      ensures !isFormOpen
      ensures user == old(user) && transactions == old(transactions)
      ensures authName == old(authName) && authEmail == old(authEmail)
      ensures savedUser == old(savedUser) && savedTransactions == old(savedTransactions)
    {
      isFormOpen := false;
    }
  }
}
