/**
 * `MockAWSCredentialStore`: the credential store the operations are exercised against.  It keeps
 * a string dictionary and a call counter per operation; data is stored as the string it decodes
 * to as UTF-8, and read back as that string's UTF-8 bytes.
 */
module MockStore {
  import opened Wrappers
  import opened Utf8
  import opened CredentialStoreErrors

  /** Every field of the mock. */
  datatype StoreState = StoreState(
    store: map<string, string>,
    getDataCallCount: nat,
    getStringCallCount: nat,
    putStringCallCount: nat,
    putDataCallCount: nat,
    removeCallCount: nat,
    removeAllCalled: bool)

  /** A freshly created mock: no entries, no calls. */
  const Fresh: StoreState := StoreState(map[], 0, 0, 0, 0, 0, false)

  /** A read's new state and what it returned or threw. */
  datatype Reply<T> = Reply(state: StoreState, result: Result<T, CredentialStoreError>)

  /** `getData(_:)`. */
  function GetDataOn(s: StoreState, key: string): Reply<Bytes> {
    var s' := s.(getDataCallCount := s.getDataCallCount + 1);
    if key in s.store then Reply(s', Success(Encode(s.store[key])))
    else Reply(s', Failure(ItemNotFoundWithDescription()))
  }

  /** `getString(_:)`. */
  function GetStringOn(s: StoreState, key: string): Reply<string> {
    var s' := s.(getStringCallCount := s.getStringCallCount + 1);
    if key in s.store then Reply(s', Success(s.store[key]))
    else Reply(s', Failure(ItemNotFoundWithDescription()))
  }

  /** `put(_: String, key:)`. */
  function PutStringOn(s: StoreState, key: string, value: string): StoreState {
    s.(putStringCallCount := s.putStringCallCount + 1, store := s.store[key := value])
  }

  /** `put(_: Data, key:)`: the bytes are kept as the string they decode to. */
  function PutDataOn(s: StoreState, key: string, value: Bytes): StoreState {
    s.(putDataCallCount := s.putDataCallCount + 1, store := s.store[key := Decode(value)])
  }

  /** `remove(_:)`. */
  function RemoveOn(s: StoreState, key: string): StoreState {
    s.(removeCallCount := s.removeCallCount + 1, store := s.store - {key})
  }

  /** `removeAll()`. */
  function RemoveAllOn(s: StoreState): StoreState {
    s.(removeAllCalled := true, store := map[])
  }

  class MockCredentialStore {
    var store: map<string, string>
    var getDataCallCount: nat
    var getStringCallCount: nat
    var putStringCallCount: nat
    var putDataCallCount: nat
    var removeCallCount: nat
    var removeAllCalled: bool

    function State(): StoreState
      reads this
    {
      StoreState(store, getDataCallCount, getStringCallCount, putStringCallCount, putDataCallCount,
                 removeCallCount, removeAllCalled)
    }

    constructor ()
      ensures State() == Fresh
    {
      store := map[];
      getDataCallCount, getStringCallCount, putStringCallCount, putDataCallCount, removeCallCount := 0, 0, 0, 0, 0;
      removeAllCalled := false;
    }

    method GetData(key: string) returns (r: Result<Bytes, CredentialStoreError>)
      modifies this
      ensures State() == GetDataOn(old(State()), key).state && r == GetDataOn(old(State()), key).result
    {
      getDataCallCount := getDataCallCount + 1;
      if key in store {
        r := Success(Encode(store[key]));
      } else {
        r := Failure(ItemNotFoundWithDescription());
      }
    }

    method GetString(key: string) returns (r: Result<string, CredentialStoreError>)
      modifies this
      ensures State() == GetStringOn(old(State()), key).state && r == GetStringOn(old(State()), key).result
    {
      getStringCallCount := getStringCallCount + 1;
      if key in store {
        r := Success(store[key]);
      } else {
        r := Failure(ItemNotFoundWithDescription());
      }
    }

    method PutString(value: string, key: string)
      modifies this
      ensures State() == PutStringOn(old(State()), key, value)
    {
      putStringCallCount := putStringCallCount + 1;
      store := store[key := value];
    }

    method PutData(value: Bytes, key: string)
      modifies this
      ensures State() == PutDataOn(old(State()), key, value)
    {
      putDataCallCount := putDataCallCount + 1;
      var str := Decode(value);
      store := store[key := str];
    }

    method Remove(key: string)
      modifies this
      ensures State() == RemoveOn(old(State()), key)
    {
      removeCallCount := removeCallCount + 1;
      store := store - {key};
    }

    method RemoveAll()
      modifies this
      ensures State() == RemoveAllOn(old(State()))
    {
      removeAllCalled := true;
      store := map[];
    }
  }

  /** Both reads throw an error equal to `itemNotFound` on an absent key, and return the stored value otherwise. */
  lemma ReadsFindStoredValues(s: StoreState, key: string)
    ensures key !in s.store ==> GetDataOn(s, key).result.Failure? && Equal(GetDataOn(s, key).result.error, ItemNotFound)
    ensures key !in s.store ==> GetStringOn(s, key).result.Failure? && Equal(GetStringOn(s, key).result.error, ItemNotFound)
    ensures key in s.store ==> GetStringOn(s, key).result == Success(s.store[key])
    ensures key in s.store ==> GetDataOn(s, key).result == Success(Encode(s.store[key]))
    ensures GetDataOn(s, key).state.store == s.store && GetStringOn(s, key).state.store == s.store
  {
  }

  /** A string put is read back unchanged. */
  lemma PutStringThenGetString(s: StoreState, key: string, value: string)
    ensures GetStringOn(PutStringOn(s, key, value), key).result == Success(value)
  {
  }

  /** Data put is read back unchanged exactly when it is well-formed UTF-8. */
  lemma PutDataThenGetData(s: StoreState, key: string, value: Bytes)
    ensures GetDataOn(PutDataOn(s, key, value), key).result == Success(value) <==> WellFormed(value)
  {
    RoundTripIffWellFormed(value);
  }

  /** A string put can be read back as its UTF-8 bytes, and those bytes put back give the same entry. */
  lemma PutStringThenGetData(s: StoreState, key: string, value: string)
    ensures GetDataOn(PutStringOn(s, key, value), key).result == Success(Encode(value))
    ensures PutDataOn(s, key, Encode(value)).store == PutStringOn(s, key, value).store
  {
    DecodeEncode(value);
  }

  /** Writes and removals touch only their own key. */
  lemma WritesTouchOnlyTheirKey(s: StoreState, key: string, other: string, value: string, data: Bytes)
    requires other != key
    ensures (other in PutStringOn(s, key, value).store <==> other in s.store)
    ensures (other in PutDataOn(s, key, data).store <==> other in s.store)
    ensures (other in RemoveOn(s, key).store <==> other in s.store)
    ensures other in s.store ==> && PutStringOn(s, key, value).store[other] == s.store[other]
                                 && PutDataOn(s, key, data).store[other] == s.store[other]
                                 && RemoveOn(s, key).store[other] == s.store[other]
  {
  }

  /** `remove` deletes its key, and on an absent key changes nothing but its counter. */
  lemma RemoveDeletesKey(s: StoreState, key: string)
    ensures key !in RemoveOn(s, key).store
    ensures key !in s.store ==> RemoveOn(s, key) == s.(removeCallCount := s.removeCallCount + 1)
  {
  }

  /** `removeAll` leaves nothing behind and records that it was called; afterwards every read throws. */
  lemma RemoveAllEmpties(s: StoreState, key: string)
    ensures RemoveAllOn(s).store == map[] && RemoveAllOn(s).removeAllCalled
    ensures GetDataOn(RemoveAllOn(s), key).result.Failure? && GetStringOn(RemoveAllOn(s), key).result.Failure?
  {
  }

  /** The five counters, in declaration order. */
  function Counters(s: StoreState): seq<nat> {
    [s.getDataCallCount, s.getStringCallCount, s.putStringCallCount, s.putDataCallCount, s.removeCallCount]
  }

  /** Each operation adds one to its own counter and leaves the others alone; `removeAll` has no counter. */
  lemma EachOperationCountsItself(s: StoreState, key: string, value: string, data: Bytes)
    ensures Counters(GetDataOn(s, key).state) == Counters(s)[0 := s.getDataCallCount + 1]
    ensures Counters(GetStringOn(s, key).state) == Counters(s)[1 := s.getStringCallCount + 1]
    ensures Counters(PutStringOn(s, key, value)) == Counters(s)[2 := s.putStringCallCount + 1]
    ensures Counters(PutDataOn(s, key, data)) == Counters(s)[3 := s.putDataCallCount + 1]
    ensures Counters(RemoveOn(s, key)) == Counters(s)[4 := s.removeCallCount + 1]
    ensures Counters(RemoveAllOn(s)) == Counters(s)
  {
  }
}
