/** The identity resolver `checkAndAddUser`: the association table is a map
    from e-mail address to association name. */
module Identity {

  /** A fault raised by the store while the function runs. */
  datatype StoreFault = NoFault | LookupFault | InsertFault

  /** The table after a fault-free `checkAndAddUser(email, name)`. */
  function CheckAndAdd(table: map<string, string>, email: string, name: string): (r: map<string, string>)
    // at most one key is added, and it is `email`
    ensures r.Keys <= table.Keys + {email}
    ensures |r| <= |table| + 1
    // no existing entry is ever replaced or removed
    ensures forall e :: e in table ==> e in r && r[e] == table[e]
    // the address is registered afterwards exactly when it was before or could be created
    ensures email in r <==> email in table || (email != "" && name != "")
    ensures email !in table && email in r ==> r[email] == name
  {
    if email == "" then table
    else if email !in table && name != "" then table[email := name]
    else table
  }

  /** Calling twice with the same arguments is calling once. */
  lemma CheckAndAddIdempotent(table: map<string, string>, email: string, name: string)
    ensures CheckAndAdd(CheckAndAdd(table, email, name), email, name) == CheckAndAdd(table, email, name)
  {
  }

  /** Once the address is registered, no later call changes the table, whatever the name. */
  lemma RegisteredIsFinal(table: map<string, string>, email: string, name: string, name': string)
    requires name != "" || email in table
    ensures var t := CheckAndAdd(table, email, name);
            CheckAndAdd(t, email, name') == t
  {
  }

  class AssociationStore {
    var associations: map<string, string>

    constructor (initial: map<string, string>)
      ensures associations == initial
    {
      associations := initial;
    }

    /** `checkAndAddUser`: a lookup followed by a conditional insert. A store
        fault is caught and ignored, so the method never fails; a fault leaves
        the table as it was. */
    method CheckAndAddUser(email: string, name: string, fault: StoreFault)
      modifies this
      ensures fault == NoFault ==> associations == CheckAndAdd(old(associations), email, name)
      ensures fault != NoFault ==> associations == old(associations)
    {
      if email == "" {
        return;
      }
      if fault == LookupFault {
        return;
      }
      var existing := email in associations;
      if !existing && name != "" {
        if fault == InsertFault {
          return;
        }
        associations := associations[email := name];
      }
    }
  }
}
