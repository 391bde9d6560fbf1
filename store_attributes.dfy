/**
 * `AWSCredentialStoreAttributes`: the base keychain queries.  The Security framework's key and
 * value constants are opaque strings in the source; here they are the enumerations `QueryKey`
 * and the two named values of `QueryValue`.
 */
module CredentialStoreAttributes {
  import opened Wrappers

  /** The keychain dictionary keys the queries use. */
  datatype QueryKey = Class | AttributeService | AttributeAccessGroup | AttributeAccessible | UseDataProtectionKeyChain

  /** The values the queries store: strings, the two keychain constants, and a boolean flag. */
  datatype QueryValue =
    | Str(text: string)
    | ClassGenericPassword
    | AccessibleAfterFirstUnlockThisDeviceOnly
    | Flag(flag: bool)

  type Query = map<QueryKey, QueryValue>

  /** `itemClass` is a string defaulting to the generic-password class. */
  datatype ItemClass = GenericPassword | OtherClass(name: string)

  datatype Attributes = Attributes(service: string, accessGroup: Option<string>, itemClass: ItemClass := GenericPassword)

  function ItemClassValue(c: ItemClass): QueryValue {
    match c
    case GenericPassword => ClassGenericPassword
    case OtherClass(name) => Str(name)
  }

  /** `defaultGetQuery()`: class and service, plus the access group when there is one. */
  function DefaultGetQuery(a: Attributes): (q: Query)
    ensures Class in q && AttributeService in q
  {
    var query := map[Class := ItemClassValue(a.itemClass), AttributeService := Str(a.service)];
    if a.accessGroup.Some? then query[AttributeAccessGroup := Str(a.accessGroup.value)] else query
  }

  /** `defaultSetQuery()`: the get query, marked accessible after first unlock on this device and kept in the data-protection keychain. */
  function DefaultSetQuery(a: Attributes): (q: Query)
    ensures DefaultGetQuery(a).Keys <= q.Keys
  {
    DefaultGetQuery(a)[AttributeAccessible := AccessibleAfterFirstUnlockThisDeviceOnly][UseDataProtectionKeyChain := Flag(true)]
  }

  /** The get query holds the class and the service, and the access group exactly when one is configured. */
  lemma GetQueryContents(a: Attributes)
    ensures var q := DefaultGetQuery(a);
            && q[Class] == ItemClassValue(a.itemClass)
            && q[AttributeService] == Str(a.service)
            && (AttributeAccessGroup in q <==> a.accessGroup.Some?)
            && (a.accessGroup.Some? ==> q[AttributeAccessGroup] == Str(a.accessGroup.value))
            && AttributeAccessible !in q && UseDataProtectionKeyChain !in q
  {
  }

  /** The get query has no keys other than class, service and access group. */
  lemma GetQueryKeys(a: Attributes)
    ensures DefaultGetQuery(a).Keys
            == (if a.accessGroup.Some? then {Class, AttributeService, AttributeAccessGroup} else {Class, AttributeService})
  {
  }

  /** The set query adds exactly the two protection entries and leaves the get query's entries as they are. */
  lemma SetQueryExtendsGetQuery(a: Attributes)
    ensures var g, s := DefaultGetQuery(a), DefaultSetQuery(a);
            && s.Keys == g.Keys + {AttributeAccessible, UseDataProtectionKeyChain}
            && (forall k :: k in g ==> s[k] == g[k])
            && s[AttributeAccessible] == AccessibleAfterFirstUnlockThisDeviceOnly
            && s[UseDataProtectionKeyChain] == Flag(true)
  {
  }

  /** The attribute tests: default class, optional access group. */
  lemma QueryExamples()
    ensures DefaultGetQuery(Attributes("someService", None))
            == map[Class := ClassGenericPassword, AttributeService := Str("someService")]
    ensures DefaultGetQuery(Attributes("someService", Some("someAccessGroup")))[AttributeAccessGroup] == Str("someAccessGroup")
    ensures DefaultSetQuery(Attributes("someService", Some("someAccessGroup")))
            == map[Class := ClassGenericPassword, AttributeService := Str("someService"),
                   AttributeAccessGroup := Str("someAccessGroup"),
                   AttributeAccessible := AccessibleAfterFirstUnlockThisDeviceOnly,
                   UseDataProtectionKeyChain := Flag(true)]
  {
  }
}
