/** The profiles table, an external store keyed by user id, and the
    outcomes its requests can have. */
module Profiles {
  import opened Base

  /** A profile row. Text columns are nullable. */
  datatype Profile = Profile(fullName: Option<string>, email: Option<string>, companyName: Option<string>,
                             phoneNumber: Option<string>, onboardingCompleted: bool)

  /** How a read request ends. */
  datatype ReadOutcome = ReadOk | ReadError(message: string) | ReadThrows

  /** How a write request ends. */
  datatype WriteOutcome = WriteOk | WriteError(message: string) | WriteThrows

  /** The four fields the onboarding form writes. */
  datatype OnboardingFields = OnboardingFields(fullName: string, email: string, companyName: string, phoneNumber: string)

  /** `update({...fields, onboarding_completed: true}).eq('user_id', id)`:
      rewrites that user's row if it exists; a missing row matches nothing. */
  function UpdateOnboarding(rows: map<string, Profile>, userId: string, f: OnboardingFields): (r: map<string, Profile>)
    ensures r.Keys == rows.Keys
    ensures forall k :: k in rows && k != userId ==> r[k] == rows[k]
    ensures userId in rows ==> r[userId] == Profile(Some(f.fullName), Some(f.email), Some(f.companyName),
                                                     Some(f.phoneNumber), true)
  {
    if userId in rows then
      rows[userId := Profile(Some(f.fullName), Some(f.email), Some(f.companyName), Some(f.phoneNumber), true)]
    else rows
  }

  /** `upsert({user_id, email, onboarding_completed: true})` merging on the
      user id: an existing row keeps its other columns, a new row has them
      null. */
  function UpsertCompleted(rows: map<string, Profile>, userId: string, email: Option<string>): (r: map<string, Profile>)
    ensures r.Keys == rows.Keys + {userId}
    ensures forall k :: k in rows && k != userId ==> r[k] == rows[k]
    ensures r[userId].onboardingCompleted && r[userId].email == email
    ensures userId in rows ==> r[userId] == rows[userId].(email := email, onboardingCompleted := true)
    ensures userId !in rows ==> r[userId] == Profile(None, email, None, None, true)
  {
    if userId in rows then rows[userId := rows[userId].(email := email, onboardingCompleted := true)]
    else rows[userId := Profile(None, email, None, None, true)]
  }

  /** The table; requests are applied only when they succeed. */
  class ProfileTable {
    var rows: map<string, Profile>

    constructor (initial: map<string, Profile>)
      ensures rows == initial
    {
      rows := initial;
    }

    method Update(userId: string, f: OnboardingFields, outcome: WriteOutcome)
      modifies this
      ensures rows == if outcome.WriteOk? then UpdateOnboarding(old(rows), userId, f) else old(rows)
    {
      if outcome.WriteOk? {
        rows := UpdateOnboarding(rows, userId, f);
      }
    }

    method Upsert(userId: string, email: Option<string>, outcome: WriteOutcome)
      modifies this
      ensures rows == if outcome.WriteOk? then UpsertCompleted(old(rows), userId, email) else old(rows)
    {
      if outcome.WriteOk? {
        rows := UpsertCompleted(rows, userId, email);
      }
    }
  }
}
