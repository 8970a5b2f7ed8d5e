/** The VNPay request and response helper (the VnPayLibrary and VnPayCompare
    classes of EcommerceBe/Services/VNPayService.cs): two key/value lists kept
    sorted by ordinal key order, a query string built from them, and an
    HMAC-SHA512 signature over that string. The hash and URL encoding are
    supplied by the caller as functions. */
module VnPayLibrary {
  import opened Common

  /** One key/value entry of a SortedList<string, string>. */
  datatype Entry = Entry(key: string, value: string)

  const SecureHashKey: string := "vnp_SecureHash"
  const SecureHashTypeKey: string := "vnp_SecureHashType"

  /** VnPayCompare.Compare over nullable strings: 0 for equal strings, null
      first, ordinal order otherwise. Only the sign of the ordinal comparison
      is kept. */
  function VnPayCompare(x: Option<string>, y: Option<string>): (r: int)
    ensures r == 0 <==> x == y
    ensures x.None? && y.Some? ==> r < 0
    ensures x.Some? && y.None? ==> r > 0
    ensures x.Some? && y.Some? ==> (r < 0 <==> OrdinalLess(x.value, y.value))
    ensures x.Some? && y.Some? ==> (r > 0 <==> OrdinalLess(y.value, x.value))
  {
    if x == y then
      if x.Some? then OrdinalIrreflexive(x.value); 0 else 0
    else if x.None? then -1
    else if y.None? then 1
    else
      OrdinalTotal(x.value, y.value);
      if OrdinalLess(x.value, y.value) then (OrdinalAsymmetric(x.value, y.value); -1)
      else 1
  }

  /** The comparer is antisymmetric. */
  lemma CompareAntisymmetric(x: Option<string>, y: Option<string>)
    ensures VnPayCompare(x, y) < 0 <==> VnPayCompare(y, x) > 0
  {
    if x.Some? && y.Some? && x != y {
      OrdinalTotal(x.value, y.value);
      if OrdinalLess(x.value, y.value) {
        OrdinalAsymmetric(x.value, y.value);
      } else {
        OrdinalAsymmetric(y.value, x.value);
      }
    }
  }

  // ---------------------------------------------------------------------
  // Sorted lists

  /** Keys strictly increasing in ordinal order (so no key twice). */
  predicate Sorted(es: seq<Entry>)
  {
    forall i, j :: 0 <= i < j < |es| ==> OrdinalLess(es[i].key, es[j].key)
  }

  predicate HasKey(es: seq<Entry>, k: string)
  {
    exists i :: 0 <= i < |es| && es[i].key == k
  }

  /** Two sorted lists with the same entries are the same list: the order of
      the Add calls does not matter. */
  lemma {:induction false} SortedUnique(a: seq<Entry>, b: seq<Entry>)
    requires Sorted(a) && Sorted(b)
    requires forall e :: e in a <==> e in b
    ensures a == b
  {
    if a != [] && b != [] {
      if a[0] != b[0] {
        assert a[0] in b && b[0] in a;
        var i :| 0 <= i < |b| && b[i] == a[0];
        var j :| 0 <= j < |a| && a[j] == b[0];
        assert i > 0 && j > 0;
        OrdinalTransitive(a[0].key, a[j].key, a[0].key);
        OrdinalIrreflexive(a[0].key);
      }
      forall e ensures e in a[1..] <==> e in b[1..] {
        if e in a[1..] {
          var i :| 1 <= i < |a| && a[i] == e;
          OrdinalIrreflexive(a[0].key);
          assert e != a[0];
        }
        if e in b[1..] {
          var i :| 1 <= i < |b| && b[i] == e;
          OrdinalIrreflexive(b[0].key);
          assert e != b[0];
        }
        assert e in a <==> e == a[0] || e in a[1..] by { assert a == [a[0]] + a[1..]; }
        assert e in b <==> e == b[0] || e in b[1..] by { assert b == [b[0]] + b[1..]; }
      }
      SortedUnique(a[1..], b[1..]);
      assert a == [a[0]] + a[1..] && b == [b[0]] + b[1..];
    } else {
      FirstIsElement(a);
      FirstIsElement(b);
    }
  }

  lemma FirstIsElement(es: seq<Entry>)
    ensures es != [] ==> es[0] in es
  {
  }

  predicate DistinctKeys(es: seq<Entry>)
  {
    forall i, j :: 0 <= i < j < |es| ==> es[i].key != es[j].key
  }

  /** A sorted list with one more entry put at its ordinal place. */
  function Insert(es: seq<Entry>, e: Entry): seq<Entry>
  {
    if es == [] then [e]
    else if OrdinalLess(e.key, es[0].key) then [e] + es
    else [es[0]] + Insert(es[1..], e)
  }

  lemma {:induction false} InsertSorted(es: seq<Entry>, e: Entry)
    requires Sorted(es) && forall x :: x in es ==> x.key != e.key
    ensures Sorted(Insert(es, e))
    ensures forall x :: x in Insert(es, e) <==> x in es || x == e
  {
    if es != [] && !OrdinalLess(e.key, es[0].key) {
      assert es[0] in es;
      OrdinalTotal(e.key, es[0].key);
      assert Sorted(es[1..]) by {
        forall i, j | 0 <= i < j < |es[1..]| ensures OrdinalLess(es[1..][i].key, es[1..][j].key) {
          assert es[1..][i] == es[i + 1] && es[1..][j] == es[j + 1];
        }
      }
      forall x | x in es[1..] ensures x.key != e.key {
        assert x in es;
      }
      InsertSorted(es[1..], e);
      var rest := Insert(es[1..], e);
      forall x | x in rest ensures OrdinalLess(es[0].key, x.key) {
        if x != e {
          var j :| 0 <= j < |es[1..]| && es[1..][j] == x;
          assert es[j + 1] == x;
        }
      }
      assert es == [es[0]] + es[1..];
    } else if es != [] {
      forall j | 0 <= j < |es| ensures OrdinalLess(e.key, es[j].key) {
        if j > 0 {
          OrdinalTransitive(e.key, es[0].key, es[j].key);
        }
      }
    }
  }

  /** The list a run of Add calls leaves, in call order, empty values skipped
      (AddRequestData and AddResponseData). */
  function Filled(es: seq<Entry>): seq<Entry>
  {
    if es == [] then []
    else if es[|es| - 1].value == "" then Filled(es[..|es| - 1])
    else Insert(Filled(es[..|es| - 1]), es[|es| - 1])
  }

  /** Adding fields with distinct keys in any order gives the non-empty ones,
      sorted by key. */
  lemma {:induction false} FilledSorted(es: seq<Entry>)
    requires DistinctKeys(es)
    ensures Sorted(Filled(es))
    ensures forall x :: x in Filled(es) <==> x in es && x.value != ""
  {
    if es != [] {
      var init := es[..|es| - 1];
      var last := es[|es| - 1];
      assert DistinctKeys(init) by {
        forall i, j | 0 <= i < j < |init| ensures init[i].key != init[j].key {
          assert init[i] == es[i] && init[j] == es[j];
        }
      }
      FilledSorted(init);
      assert es == init + [last];
      if last.value != "" {
        forall x | x in Filled(init) ensures x.key != last.key {
          var j :| 0 <= j < |init| && init[j] == x;
          assert es[j] == x;
        }
        InsertSorted(Filled(init), last);
      }
    }
  }

  /** The entries without key k (SortedList.Remove). */
  function RemoveKey(es: seq<Entry>, k: string): (r: seq<Entry>)
    ensures forall e :: e in r <==> e in es && e.key != k
  {
    if es == [] then []
    else (if es[0].key != k then [es[0]] else []) + RemoveKey(es[1..], k)
  }

  lemma {:induction false} RemoveKeySorted(es: seq<Entry>, k: string)
    requires Sorted(es)
    ensures Sorted(RemoveKey(es, k))
  {
    if es != [] {
      assert Sorted(es[1..]) by {
        forall i, j | 0 <= i < j < |es[1..]| ensures OrdinalLess(es[1..][i].key, es[1..][j].key) {
          assert es[1..][i] == es[i + 1] && es[1..][j] == es[j + 1];
        }
      }
      RemoveKeySorted(es[1..], k);
      var rest := RemoveKey(es[1..], k);
      forall e | e in rest ensures OrdinalLess(es[0].key, e.key) {
        var j :| 0 <= j < |es[1..]| && es[1..][j] == e;
        assert es[j + 1] == e;
      }
    }
  }

  /** Removing an absent key changes nothing. */
  lemma {:induction false} RemoveAbsentKey(es: seq<Entry>, k: string)
    requires forall e :: e in es ==> e.key != k
    ensures RemoveKey(es, k) == es
  {
    if es != [] {
      assert es[0] in es;
      forall e | e in es[1..] ensures e.key != k {
        assert e in es;
      }
      RemoveAbsentKey(es[1..], k);
      assert es == [es[0]] + es[1..];
    }
  }

  // ---------------------------------------------------------------------
  // Query strings

  /** One `key=value` field, both sides URL-encoded. */
  function Field(e: Entry, enc: string -> string): string
  {
    enc(e.key) + "=" + enc(e.value)
  }

  /** The fields joined by '&', in list order. */
  function Join(es: seq<Entry>, enc: string -> string): string
  {
    if es == [] then ""
    else if |es| == 1 then Field(es[0], enc)
    else Join(es[..|es| - 1], enc) + "&" + Field(es[|es| - 1], enc)
  }

  lemma JoinEmpty(es: seq<Entry>, enc: string -> string)
    ensures |Join(es, enc)| == 0 <==> es == []
  {
    if es != [] {
      assert Field(es[|es| - 1], enc)[|enc(es[|es| - 1].key)|] == '=';
    }
  }

  /** The parts of a query string: each field is preceded by '&' except the first. */
  lemma JoinExtend(es: seq<Entry>, enc: string -> string, i: nat)
    requires i < |es|
    ensures Join(es[..i + 1], enc) == (if i == 0 then "" else Join(es[..i], enc) + "&") + Field(es[i], enc)
  {
    assert es[..i + 1][..i] == es[..i];
  }

  /** The hash comparison: String.Equals with InvariantCultureIgnoreCase, on
      ASCII letters. */
  predicate EqualsIgnoreCase(a: string, b: string)
  {
    Lower(a) == Lower(b)
  }

  /** The string ValidateSignature hashes: every entry except the two hash fields. */
  function SignedPart(es: seq<Entry>): seq<Entry>
  {
    RemoveKey(RemoveKey(es, SecureHashTypeKey), SecureHashKey)
  }

  /** A request signed by CreateRequestUrl validates, with the same secret, when
      its fields come back as the response data: signing and checking join
      and encode the same way, and the hash is compared ignoring case. */
  lemma SignedRequestValidates(es: seq<Entry>, secret: string, hashed: string,
                               hmac: (string, string) -> string, enc: string -> string)
    requires forall e :: e in es ==> e.key != SecureHashKey && e.key != SecureHashTypeKey
    requires EqualsIgnoreCase(hashed, hmac(secret, Join(es, enc)))
    ensures EqualsIgnoreCase(hmac(secret, Join(SignedPart(es), enc)), hashed)
  {
    RemoveAbsentKey(es, SecureHashTypeKey);
    RemoveAbsentKey(es, SecureHashKey);
  }

  /** The request and response lists of one VnPayLibrary. */
  class VnPayLibrary {
    var requestData: seq<Entry>
    var responseData: seq<Entry>

    /** Both lists are sorted and hold no empty value. */
    ghost predicate Valid()
      reads this
    {
      && Sorted(requestData) && Sorted(responseData)
      && (forall e :: e in requestData ==> e.value != "")
      && (forall e :: e in responseData ==> e.value != "")
    }

    constructor ()
      ensures Valid() && requestData == [] && responseData == []
    {
      requestData := [];
      responseData := [];
    }

    /** AddRequestData: an empty value is skipped; a key already present makes
        SortedList.Add throw. */
    method AddRequestData(key: string, value: string) returns (r: Outcome<()>)
      requires Valid()
      modifies this
      ensures Valid() && responseData == old(responseData)
      ensures r.Err? <==> value != "" && HasKey(old(requestData), key)
      ensures r.Err? || value == "" ==> requestData == old(requestData)
      ensures r.Ok? && value != "" ==>
        (|requestData| == |old(requestData)| + 1 &&
         forall e :: e in requestData <==> e in old(requestData) || e == Entry(key, value))
    {
      if value == "" {
        return Ok(());
      }
      var data;
      r, data := SortedAdd(requestData, key, value);
      requestData := data;
    }

    /** AddResponseData: as AddRequestData, on the response list. */
    method AddResponseData(key: string, value: string) returns (r: Outcome<()>)
      requires Valid()
      modifies this
      ensures Valid() && requestData == old(requestData)
      ensures r.Err? <==> value != "" && HasKey(old(responseData), key)
      ensures r.Err? || value == "" ==> responseData == old(responseData)
      ensures r.Ok? && value != "" ==>
        (|responseData| == |old(responseData)| + 1 &&
         forall e :: e in responseData <==> e in old(responseData) || e == Entry(key, value))
    {
      if value == "" {
        return Ok(());
      }
      var data;
      r, data := SortedAdd(responseData, key, value);
      responseData := data;
    }

    /** GetResponseData(key): the value, or "" for an absent key. */
    function GetResponseData(key: string): (v: string)
      reads this
      requires Valid()
      ensures v != "" <==> HasKey(responseData, key)
      ensures forall i :: 0 <= i < |responseData| && responseData[i].key == key ==> v == responseData[i].value
    {
      LookUp(responseData, key)
    }

    /** CreateRequestUrl: the base address, the query string of the request
        list, and its signature. */
    method CreateRequestUrl(baseUrl: string, secret: string, hmac: (string, string) -> string,
                            enc: string -> string) returns (url: string)
      ensures url == baseUrl + "?" + Join(requestData, enc) + "&vnp_SecureHash=" + hmac(secret, Join(requestData, enc))
    {
      var data := BuildQuery(requestData, enc);
      url := baseUrl + "?" + data + "&vnp_SecureHash=" + hmac(secret, data);
    }

    /** ValidateSignature: drops the two hash fields from the response list,
        then compares the signature of what is left with the given hash. */
    method ValidateSignature(inputHash: string, secret: string, hmac: (string, string) -> string,
                             enc: string -> string) returns (ok: bool)
      requires Valid()
      modifies this
      ensures Valid() && requestData == old(requestData)
      ensures responseData == SignedPart(old(responseData))
      ensures ok <==> EqualsIgnoreCase(hmac(secret, Join(responseData, enc)), inputHash)
    {
      RemoveKeySorted(responseData, SecureHashTypeKey);
      responseData := RemoveKey(responseData, SecureHashTypeKey);
      RemoveKeySorted(responseData, SecureHashKey);
      responseData := RemoveKey(responseData, SecureHashKey);
      var raw := BuildQuery(responseData, enc);
      ok := Lower(hmac(secret, raw)) == Lower(inputHash);
    }
  }

  /** The value stored under a key, or "". */
  function LookUp(es: seq<Entry>, key: string): (v: string)
    requires forall e :: e in es ==> e.value != ""
    requires Sorted(es)
    ensures v != "" <==> HasKey(es, key)
    ensures forall i :: 0 <= i < |es| && es[i].key == key ==> v == es[i].value
  {
    if es == [] then ""
    else if es[0].key == key then
      assert es[0] in es;
      assert forall i :: 0 < i < |es| ==> OrdinalLess(es[0].key, es[i].key);
      OrdinalIrreflexive(key);
      es[0].value
    else
      assert forall e :: e in es[1..] ==> e in es;
      assert Sorted(es[1..]) by {
        forall i, j | 0 <= i < j < |es[1..]| ensures OrdinalLess(es[1..][i].key, es[1..][j].key) {
          assert es[1..][i] == es[i + 1] && es[1..][j] == es[j + 1];
        }
      }
      var v := LookUp(es[1..], key);
      assert HasKey(es, key) <==> HasKey(es[1..], key) by {
        if HasKey(es, key) {
          var i :| 0 <= i < |es| && es[i].key == key;
          assert es[1..][i - 1] == es[i];
        }
        if HasKey(es[1..], key) {
          var i :| 0 <= i < |es[1..]| && es[1..][i].key == key;
          assert es[i + 1] == es[1..][i];
        }
      }
      assert forall i :: 1 <= i < |es| ==> es[i] == es[1..][i - 1];
      v
  }

  /** SortedList.Add: insert at the ordinal position, or fail on a present key. */
  method SortedAdd(data: seq<Entry>, key: string, value: string) returns (r: Outcome<()>, out: seq<Entry>)
    requires Sorted(data)
    ensures Sorted(out)
    ensures r.Err? <==> HasKey(data, key)
    ensures r.Err? ==> out == data
    ensures r.Ok? ==> |out| == |data| + 1 && forall e :: e in out <==> e in data || e == Entry(key, value)
  {
    var i := 0;
    while i < |data| && OrdinalLess(data[i].key, key)
      invariant 0 <= i <= |data|
      invariant forall j :: 0 <= j < i ==> OrdinalLess(data[j].key, key)
    {
      i := i + 1;
    }
    if i < |data| && data[i].key == key {
      return Err("An entry with the same key already exists."), data;
    }
    if i < |data| {
      OrdinalTotal(key, data[i].key);
    }
    forall j | i <= j < |data| ensures OrdinalLess(key, data[j].key) {
      if j > i {
        OrdinalTransitive(key, data[i].key, data[j].key);
      }
    }
    forall j | 0 <= j < |data| ensures data[j].key != key {
      if j < i {
        OrdinalIrreflexive(key);
      } else {
        OrdinalIrreflexive(key);
      }
    }
    out := data[..i] + [Entry(key, value)] + data[i..];
    forall a, b | 0 <= a < b < |out| ensures OrdinalLess(out[a].key, out[b].key) {
      if a < i && b > i {
        assert out[a] == data[a] && out[b] == data[b - 1];
      } else if a < i && b < i {
        assert out[a] == data[a] && out[b] == data[b];
      } else if a > i {
        assert out[a] == data[a - 1] && out[b] == data[b - 1];
      }
    }
    assert forall e :: e in out <==> e in data[..i] || e == Entry(key, value) || e in data[i..];
    assert data == data[..i] + data[i..];
    r := Ok(());
  }

  /** The StringBuilder loop shared by CreateRequestUrl and GetResponseData. */
  method BuildQuery(es: seq<Entry>, enc: string -> string) returns (data: string)
    ensures data == Join(es, enc)
  {
    data := "";
    var i := 0;
    while i < |es|
      invariant 0 <= i <= |es|
      invariant data == Join(es[..i], enc)
    {
      JoinEmpty(es[..i], enc);
      JoinExtend(es, enc, i);
      if |data| > 0 {
        data := data + "&";
      }
      data := data + Field(es[i], enc);
      i := i + 1;
    }
    assert es[..i] == es;
  }
}
