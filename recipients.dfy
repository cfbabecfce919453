/** Phone numbers of alert recipients: the normalisation done by
    TwilioUserData.save and prefixed_phone_number, and the list of numbers
    a channel resolves from the stored rows. */
module Recipients {
  import opened Wrappers
  import opened Sequences

  /** The identity of a Cabot user. */
  type UserId = nat

  /** A stored TwilioUserData row: its user and its nullable phone_number. */
  datatype Record = Record(user: UserId, phoneNumber: Option<string>)

  /** True when s begins with "+". */
  predicate StartsWithPlus(s: string)
  {
    |s| > 0 && s[0] == '+'
  }

  /** The value save() leaves in phone_number. A missing number stays
      missing: str(None) is "None", which has no leading "+". */
  function Normalised(phone: Option<string>): (saved: Option<string>)
    ensures saved.Some? == phone.Some?
    ensures phone.Some? ==> phone.value == saved.value || phone.value == "+" + saved.value
    ensures phone.Some? && !StartsWithPlus(phone.value) ==> saved == phone
  {
    match phone
    case None => None
    case Some(s) =>
      if StartsWithPlus(s) then
        assert s == "+" + s[1..];
        Some(s[1..])
      else Some(s)
  }

  /** prefixed_phone_number of a stored number: what save() would store
      for the usable number is the stored one again. */
  function Prefixed(stored: string): (usable: string)
    ensures StartsWithPlus(usable)
    ensures Normalised(Some(usable)) == Some(stored)
  {
    "+" + stored
  }

  /** A row whose phone_number is truthy: present and not empty. */
  predicate Usable(r: Record)
  {
    r.phoneNumber.Some? && r.phoneNumber.value != ""
  }

  /** The numbers a channel dials for the users in ids: the rows of those
      users are taken in row order, rows without a truthy number are
      skipped, and each remaining number is read through its prefixed
      form. */
  function Mobiles(store: seq<Record>, ids: seq<UserId>): (mobiles: seq<string>)
    ensures |mobiles| <= |store|
    ensures forall k :: 0 <= k < |mobiles| ==> |mobiles[k]| >= 2 && mobiles[k][0] == '+'
  {
    if store == [] then []
    else
      (if store[0].user in ids && Usable(store[0])
       then [Prefixed(store[0].phoneNumber.value)] else [])
      + Mobiles(store[1..], ids)
  }

  /** The stored form of a TwilioUserData, whose save() normalises the
      number in place before the row is persisted. */
  class UserData {
    var user: UserId
    var phoneNumber: Option<string>

    constructor (user: UserId, phoneNumber: Option<string>)
      ensures this.user == user && this.phoneNumber == phoneNumber
    {
      this.user := user;
      this.phoneNumber := phoneNumber;
    }

    /** save(): strip one leading "+" from the number. */
    method Save()
      modifies this`phoneNumber
      ensures phoneNumber == Normalised(old(phoneNumber))
    {
      if phoneNumber.Some? && StartsWithPlus(phoneNumber.value) {
        phoneNumber := Some(phoneNumber.value[1..]);
      }
    }

    /** prefixed_phone_number: the stored number behind one "+". A missing
        number makes the source raise, so callers must have one. */
    function PrefixedPhoneNumber(): (usable: string)
      reads this
      requires phoneNumber.Some?
      ensures StartsWithPlus(usable)
      ensures Normalised(Some(usable)) == phoneNumber
    {
      Prefixed(phoneNumber.value)
    }
  }

  // ---------------------------------------------------------------------
  // Normalisation
  // ---------------------------------------------------------------------

  /** save() removes exactly one leading "+", and only that. */
  lemma NormalisedStripsOnePlus(x: string)
    ensures Normalised(Some("+" + x)) == Some(x)
    ensures !StartsWithPlus(x) ==> Normalised(Some(x)) == Some(x)
    ensures Normalised(None) == None
  {
    assert ("+" + x)[1..] == x;
  }

  /** A number entered with or without its "+" is read back with one. */
  lemma ReadBackWithOnePlus(x: string)
    requires !StartsWithPlus(x)
    ensures Prefixed(Normalised(Some(x)).value) == "+" + x
    ensures Prefixed(Normalised(Some("+" + x)).value) == "+" + x
  {
    NormalisedStripsOnePlus(x);
  }

  /** Saving twice is saving once, unless the number starts with "++". */
  lemma SaveTwiceIsSaveOnce(phone: Option<string>)
    requires phone.Some? ==> !(StartsWithPlus(phone.value) && StartsWithPlus(phone.value[1..]))
    ensures Normalised(Normalised(phone)) == Normalised(phone)
  {
  }

  /** A number with two leading "+" loses one on each save. */
  lemma SaveTwiceStripsTwo(x: string)
    ensures Normalised(Some("++" + x)) == Some("+" + x)
    ensures Normalised(Normalised(Some("++" + x))) == Some(x)
  {
    assert ("++" + x)[1..] == "+" + x;
    assert ("+" + x)[1..] == x;
  }

  // ---------------------------------------------------------------------
  // Resolution
  // ---------------------------------------------------------------------

  /** A number is resolved exactly when some row of a user in ids holds it,
      without its "+", as a non-empty number. */
  lemma {:induction false} MobilesMembership(store: seq<Record>, ids: seq<UserId>, m: string)
    ensures m in Mobiles(store, ids) <==>
      exists k :: 0 <= k < |store| && store[k].user in ids && Usable(store[k])
                  && m == Prefixed(store[k].phoneNumber.value)
  {
    if store != [] {
      MobilesMembership(store[1..], ids, m);
      if m in Mobiles(store[1..], ids) {
        var k :| 0 <= k < |store[1..]| && store[1..][k].user in ids && Usable(store[1..][k])
                 && m == Prefixed(store[1..][k].phoneNumber.value);
        assert store[k + 1] == store[1..][k];
      }
      if exists k :: 0 <= k < |store| && store[k].user in ids && Usable(store[k])
                     && m == Prefixed(store[k].phoneNumber.value) {
        var k :| 0 <= k < |store| && store[k].user in ids && Usable(store[k])
                 && m == Prefixed(store[k].phoneNumber.value);
        if k > 0 {
          assert store[1..][k - 1] == store[k];
        }
      }
    }
  }

  /** Resolving a concatenation of stores resolves each part in turn, so
      the numbers come out in row order. */
  lemma {:induction false} MobilesAppend(a: seq<Record>, b: seq<Record>, ids: seq<UserId>)
    ensures Mobiles(a + b, ids) == Mobiles(a, ids) + Mobiles(b, ids)
  {
    if a == [] {
      assert a + b == b;
    } else {
      assert (a + b)[1..] == a[1..] + b;
      MobilesAppend(a[1..], b, ids);
    }
  }

  /** Rows without a usable number, or of users outside ids, give nothing. */
  lemma {:induction false} MobilesSkipsUnusable(store: seq<Record>, ids: seq<UserId>)
    requires forall k :: 0 <= k < |store| ==> store[k].user !in ids || !Usable(store[k])
    ensures Mobiles(store, ids) == []
  {
    if store != [] {
      assert forall k :: 0 <= k < |store[1..]| ==> store[1..][k] == store[k + 1];
      MobilesSkipsUnusable(store[1..], ids);
    }
  }

  /** Widening the set of identities only adds numbers: what a narrower
      set resolves occurs, in the same order, in what a wider one does. */
  lemma {:induction false} MobilesMonotone(store: seq<Record>, ids: seq<UserId>, wider: seq<UserId>)
    requires forall u :: u in ids ==> u in wider
    ensures IsSubsequence(Mobiles(store, ids), Mobiles(store, wider))
  {
    if store != [] {
      MobilesMonotone(store[1..], ids, wider);
      var rest, restWide := Mobiles(store[1..], ids), Mobiles(store[1..], wider);
      if store[0].user in ids && Usable(store[0]) {
        var m := Prefixed(store[0].phoneNumber.value);
        assert Mobiles(store, ids) == [m] + rest;
        assert Mobiles(store, wider) == [m] + restWide;
        assert ([m] + rest)[1..] == rest;
        assert ([m] + restWide)[1..] == restWide;
      } else if store[0].user in wider && Usable(store[0]) {
        var m := Prefixed(store[0].phoneNumber.value);
        assert Mobiles(store, ids) == rest;
        assert Mobiles(store, wider) == [m] + restWide;
        assert ([m] + restWide)[1..] == restWide;
        if rest != [] {
          assert IsSubsequence(rest, ([m] + restWide)[1..]);
        }
      } else {
        assert Mobiles(store, ids) == rest;
        assert Mobiles(store, wider) == restWide;
      }
    }
  }

  /** Resolving users followed by duty officers gives a number exactly when
      resolving one of the two groups does. */
  lemma MobilesOfUnion(store: seq<Record>, users: seq<UserId>, dutyOfficers: seq<UserId>, m: string)
    ensures m in Mobiles(store, users + dutyOfficers) <==>
      m in Mobiles(store, users) || m in Mobiles(store, dutyOfficers)
  {
    MobilesMembership(store, users + dutyOfficers, m);
    MobilesMembership(store, users, m);
    MobilesMembership(store, dutyOfficers, m);
  }

  /** When no usable stored number has a leading "+", every resolved number
      has exactly one "+". */
  lemma {:induction false} MobilesHaveSinglePlus(store: seq<Record>, ids: seq<UserId>)
    requires forall k :: 0 <= k < |store| && Usable(store[k]) ==>
      !StartsWithPlus(store[k].phoneNumber.value)
    ensures forall k :: 0 <= k < |Mobiles(store, ids)| ==>
      Mobiles(store, ids)[k][0] == '+' && Mobiles(store, ids)[k][1] != '+'
  {
    if store != [] {
      assert forall k :: 0 <= k < |store[1..]| ==> store[1..][k] == store[k + 1];
      MobilesHaveSinglePlus(store[1..], ids);
    }
  }

  /** Rows written by save() from numbers entered with at most one leading
      "+" resolve to numbers with exactly one "+". */
  lemma SavedRowsResolveWithSinglePlus(store: seq<Record>, entered: seq<Option<string>>,
                                       ids: seq<UserId>)
    requires |entered| == |store|
    requires forall k :: 0 <= k < |store| ==> store[k].phoneNumber == Normalised(entered[k])
    requires forall k :: 0 <= k < |entered| && entered[k].Some? ==>
      !(StartsWithPlus(entered[k].value) && StartsWithPlus(entered[k].value[1..]))
    ensures forall k :: 0 <= k < |Mobiles(store, ids)| ==>
      Mobiles(store, ids)[k][0] == '+' && Mobiles(store, ids)[k][1] != '+'
  {
    forall k | 0 <= k < |store| && Usable(store[k])
      ensures !StartsWithPlus(store[k].phoneNumber.value)
    {
      SaveTwiceIsSaveOnce(entered[k]);
    }
    MobilesHaveSinglePlus(store, ids);
  }

  /** Every duty officer's number is among the numbers resolved for the
      users together with the duty officers. */
  lemma DutyOfficersAmongRecipients(store: seq<Record>, users: seq<UserId>,
                                    dutyOfficers: seq<UserId>, m: string)
    requires m in Mobiles(store, dutyOfficers)
    ensures m in Mobiles(store, users + dutyOfficers)
  {
    MobilesMonotone(store, dutyOfficers, users + dutyOfficers);
    SubsequenceMembers(Mobiles(store, dutyOfficers), Mobiles(store, users + dutyOfficers), m);
  }
}
