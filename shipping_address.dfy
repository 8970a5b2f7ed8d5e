/** Shipping addresses (EcommerceBe/Repositories/ShippingAddressRepository.cs
    and EcommerceBe/Services/ShippingAddressService.cs): the address table,
    the service that creates, edits, deletes and picks the default address,
    and the rule that a user has at most one default address. Fresh GUIDs
    and the clock are parameters. */
module ShippingAddress {
  import opened Common

  /** ShippingAddress. */
  datatype Address = Address(id: Guid, userId: Guid, fullName: string, phoneNumber: string, street: string,
                             ward: string, district: string, city: string, isDefault: bool,
                             createdAt: int, updatedAt: int)

  /** CreateAddressDto (UpdateAddressDto has the same fields). */
  datatype AddressForm = AddressForm(fullName: string, phoneNumber: string, street: string, ward: string,
                                     district: string, city: string, isDefault: bool)

  /** AddressDto. */
  datatype AddressDto = AddressDto(id: Guid, fullName: string, phoneNumber: string, street: string, ward: string,
                                   district: string, city: string, isDefault: bool)

  /** No user has two default addresses. */
  predicate OneDefault(addresses: seq<Address>)
  {
    forall i, j ::
      (0 <= i < |addresses| && 0 <= j < |addresses| && addresses[i].isDefault && addresses[j].isDefault &&
       addresses[i].userId == addresses[j].userId) ==> i == j
  }

  /** The address with the id (FindAsync on the key), or |addresses|. */
  function FindAddress(addresses: seq<Address>, id: Guid): (i: nat)
    ensures i <= |addresses|
    ensures i < |addresses| ==> addresses[i].id == id
    ensures forall k :: 0 <= k < i ==> addresses[k].id != id
  {
    if addresses == [] then 0
    else if addresses[0].id == id then 0
    else 1 + FindAddress(addresses[1..], id)
  }

  /** The user's first default address, or |addresses|. */
  function FirstDefault(addresses: seq<Address>, userId: Guid): (i: nat)
    ensures i <= |addresses|
    ensures i < |addresses| ==> addresses[i].userId == userId && addresses[i].isDefault
    ensures forall k :: 0 <= k < i ==> !(addresses[k].userId == userId && addresses[k].isDefault)
  {
    if addresses == [] then 0
    else if addresses[0].userId == userId && addresses[0].isDefault then 0
    else 1 + FirstDefault(addresses[1..], userId)
  }

  /** The table after UnsetDefaultAsync: the user's first default address,
      if any, is no longer default. */
  function Unset(addresses: seq<Address>, userId: Guid): seq<Address>
  {
    var i := FirstDefault(addresses, userId);
    if i < |addresses| then addresses[i := addresses[i].(isDefault := false)] else addresses
  }

  /** UnsetDefaultAsync changes nothing but one IsDefault flag of the user's:
      other users' addresses, ids and every other field stay as they were. */
  lemma UnsetTouchesOnlyTheUser(addresses: seq<Address>, userId: Guid)
    ensures |Unset(addresses, userId)| == |addresses|
    ensures forall k :: 0 <= k < |addresses| ==>
      Unset(addresses, userId)[k] == addresses[k].(isDefault := Unset(addresses, userId)[k].isDefault)
    ensures forall k :: 0 <= k < |addresses| && addresses[k].userId != userId ==>
      Unset(addresses, userId)[k] == addresses[k]
    ensures forall k :: 0 <= k < |addresses| && Unset(addresses, userId)[k].isDefault ==> addresses[k].isDefault
  {
  }

  /** With at most one default before, the user has no default afterwards. */
  lemma UnsetLeavesNoDefault(addresses: seq<Address>, userId: Guid)
    requires OneDefault(addresses)
    ensures OneDefault(Unset(addresses, userId))
    ensures forall k :: 0 <= k < |addresses| && addresses[k].userId == userId ==> !Unset(addresses, userId)[k].isDefault
  {
    var i := FirstDefault(addresses, userId);
    var r := Unset(addresses, userId);
    forall k | 0 <= k < |addresses| && addresses[k].userId == userId
      ensures !r[k].isDefault
    {
      if addresses[k].isDefault {
        assert i <= k;
      }
    }
  }

  /** The new address CreateAsync stores. */
  function NewAddress(userId: Guid, form: AddressForm, id: Guid, now: int): Address
  {
    Address(id, userId, form.fullName, form.phoneNumber, form.street, form.ward, form.district, form.city,
            form.isDefault, now, now)
  }

  /** The table after CreateAsync. */
  function Created(addresses: seq<Address>, userId: Guid, form: AddressForm, id: Guid, now: int): seq<Address>
  {
    (if form.isDefault then Unset(addresses, userId) else addresses) + [NewAddress(userId, form, id, now)]
  }

  /** The address at i with the form's fields copied onto it. */
  function Copied(a: Address, form: AddressForm, now: int): (r: Address)
    ensures r.id == a.id && r.userId == a.userId && r.createdAt == a.createdAt
    ensures AddressForm(r.fullName, r.phoneNumber, r.street, r.ward, r.district, r.city, r.isDefault) == form
    ensures r.updatedAt == now
  {
    a.(fullName := form.fullName, phoneNumber := form.phoneNumber, street := form.street, ward := form.ward,
       district := form.district, city := form.city, isDefault := form.isDefault, updatedAt := now)
  }

  /** The table after a successful UpdateAsync of the address at i. */
  function Edited(addresses: seq<Address>, i: nat, userId: Guid, form: AddressForm, now: int): seq<Address>
    requires i < |addresses|
  {
    var base := if form.isDefault then Unset(addresses, userId) else addresses;
    assert |base| == |addresses| by { UnsetTouchesOnlyTheUser(addresses, userId); }
    base[i := Copied(base[i], form, now)]
  }

  /** The table after a successful DeleteAsync of the address at i. */
  function Removed(addresses: seq<Address>, i: nat): (r: seq<Address>)
    requires i < |addresses|
    ensures |r| == |addresses| - 1
    ensures multiset(r) + multiset{addresses[i]} == multiset(addresses)
  {
    assert addresses == addresses[..i] + [addresses[i]] + addresses[i + 1..];
    addresses[..i] + addresses[i + 1..]
  }

  /** The table after a successful SetDefaultAsync of the address at i. */
  function MadeDefault(addresses: seq<Address>, i: nat, userId: Guid, now: int): seq<Address>
    requires i < |addresses|
  {
    var base := Unset(addresses, userId);
    assert |base| == |addresses| by { UnsetTouchesOnlyTheUser(addresses, userId); }
    base[i := base[i].(isDefault := true, updatedAt := now)]
  }

  /** Creating keeps at most one default per user; a default new address is
      then its user's only default. */
  lemma CreatedKeepsOneDefault(addresses: seq<Address>, userId: Guid, form: AddressForm, id: Guid, now: int)
    requires OneDefault(addresses)
    ensures var r := Created(addresses, userId, form, id, now);
      OneDefault(r) && r[|addresses|] == NewAddress(userId, form, id, now) &&
      (form.isDefault ==> forall k :: 0 <= k < |addresses| && r[k].userId == userId ==> !r[k].isDefault)
  {
    var r := Created(addresses, userId, form, id, now);
    var base := if form.isDefault then Unset(addresses, userId) else addresses;
    UnsetTouchesOnlyTheUser(addresses, userId);
    if form.isDefault {
      UnsetLeavesNoDefault(addresses, userId);
    }
    assert r == base + [NewAddress(userId, form, id, now)];
  }

  /** Editing the user's own address keeps at most one default per user and
      copies every field of the form. */
  lemma EditedKeepsOneDefault(addresses: seq<Address>, i: nat, userId: Guid, form: AddressForm, now: int)
    requires i < |addresses| && addresses[i].userId == userId
    requires OneDefault(addresses)
    ensures var r := Edited(addresses, i, userId, form, now);
      OneDefault(r) && |r| == |addresses| &&
      r[i] == Copied(addresses[i], form, now) &&
      (forall k :: 0 <= k < |addresses| && k != i && addresses[k].userId != userId ==> r[k] == addresses[k])
  {
    UnsetTouchesOnlyTheUser(addresses, userId);
    if form.isDefault {
      UnsetLeavesNoDefault(addresses, userId);
    }
  }

  /** Deleting keeps at most one default per user. */
  lemma RemovedKeepsOneDefault(addresses: seq<Address>, i: nat)
    requires i < |addresses|
    requires OneDefault(addresses)
    ensures OneDefault(Removed(addresses, i))
  {
    var r := Removed(addresses, i);
    forall a, b | 0 <= a < |r| && 0 <= b < |r| && r[a].isDefault && r[b].isDefault && r[a].userId == r[b].userId
      ensures a == b
    {
      var a' := if a < i then a else a + 1;
      var b' := if b < i then b else b + 1;
      assert r[a] == addresses[a'] && r[b] == addresses[b'];
    }
  }

  /** After SetDefaultAsync the address is its user's one default, and every
      other user keeps at most one. */
  lemma MadeDefaultIsTheOnlyDefault(addresses: seq<Address>, i: nat, userId: Guid, now: int)
    requires i < |addresses| && addresses[i].userId == userId
    requires OneDefault(addresses)
    ensures var r := MadeDefault(addresses, i, userId, now);
      OneDefault(r) && r[i].isDefault &&
      (forall k :: 0 <= k < |r| && k != i && r[k].userId == userId ==> !r[k].isDefault)
  {
    UnsetTouchesOnlyTheUser(addresses, userId);
    UnsetLeavesNoDefault(addresses, userId);
  }

  /** The user's addresses with IsDefault equal to d, in table order. */
  function OfUser(addresses: seq<Address>, userId: Guid, d: bool): (r: seq<Address>)
    ensures forall a :: a in r <==> a in addresses && a.userId == userId && a.isDefault == d
  {
    if addresses == [] then []
    else
      (if addresses[0].userId == userId && addresses[0].isDefault == d then [addresses[0]] else [])
      + OfUser(addresses[1..], userId, d)
  }

  /** The user's addresses, in table order. */
  function UserAddresses(addresses: seq<Address>, userId: Guid): (r: seq<Address>)
    ensures forall a :: a in r <==> a in addresses && a.userId == userId
  {
    if addresses == [] then []
    else (if addresses[0].userId == userId then [addresses[0]] else []) + UserAddresses(addresses[1..], userId)
  }

  /** Splitting the user's addresses into defaults and the rest loses none. */
  lemma {:induction false} OfUserSplits(addresses: seq<Address>, userId: Guid)
    ensures multiset(OfUser(addresses, userId, true)) + multiset(OfUser(addresses, userId, false)) ==
            multiset(UserAddresses(addresses, userId))
  {
    if addresses != [] {
      OfUserSplits(addresses[1..], userId);
    }
  }

  /** The listing order: the user's default addresses, then the rest, each
      group in table order. The SQL query leaves the order among addresses
      with the same flag unspecified; the model takes table order for those
      ties, and GetByUserId promises no more than defaults first. */
  function ByUser(addresses: seq<Address>, userId: Guid): seq<Address>
  {
    OfUser(addresses, userId, true) + OfUser(addresses, userId, false)
  }

  /** The listing holds exactly the user's addresses, defaults first. */
  lemma ByUserListsTheUsersAddresses(addresses: seq<Address>, userId: Guid)
    ensures var r := ByUser(addresses, userId);
      multiset(r) == multiset(UserAddresses(addresses, userId)) &&
      (forall a :: a in r ==> a.userId == userId) &&
      (forall i, j :: 0 <= i < j < |r| && r[j].isDefault ==> r[i].isDefault)
  {
    var t := OfUser(addresses, userId, true);
    var f := OfUser(addresses, userId, false);
    var r := ByUser(addresses, userId);
    assert multiset(r) == multiset(UserAddresses(addresses, userId)) by {
      OfUserSplits(addresses, userId);
    }
    assert forall a :: a in r ==> a.userId == userId by {
      assert forall a :: a in r ==> a in t || a in f;
    }
    DefaultsFirst(t, f);
  }

  /** Defaults followed by non-defaults put every default before every other. */
  lemma DefaultsFirst(t: seq<Address>, f: seq<Address>)
    requires forall a :: a in t ==> a.isDefault
    requires forall a :: a in f ==> !a.isDefault
    ensures forall i, j :: 0 <= i < j < |t + f| && (t + f)[j].isDefault ==> (t + f)[i].isDefault
  {
    var r := t + f;
    assert forall k :: 0 <= k < |t| ==> r[k] == t[k] && t[k] in t;
    assert forall k :: |t| <= k < |r| ==> r[k] == f[k - |t|] && f[k - |t|] in f;
  }

  function ToDto(a: Address): AddressDto
  {
    AddressDto(a.id, a.fullName, a.phoneNumber, a.street, a.ward, a.district, a.city, a.isDefault)
  }

  /** The ShippingAddresses table. */
  class ShippingAddressRepository {
    var addresses: seq<Address>

    constructor (addresses: seq<Address>)
      ensures this.addresses == addresses
    {
      this.addresses := addresses;
    }

    /** GetByUserIdAsync: the user's addresses, defaults first. */
    function GetByUserId(userId: Guid): (r: seq<Address>)
      reads this
      ensures forall a :: a in r <==> a in addresses && a.userId == userId
      ensures forall i, j :: 0 <= i < j < |r| && r[j].isDefault ==> r[i].isDefault
      ensures multiset(r) == multiset(UserAddresses(addresses, userId))
    {
      ByUserListsTheUsersAddresses(addresses, userId);
      ByUser(addresses, userId)
    }

    /** GetByIdAsync: the address with the id, or null. */
    function GetById(id: Guid): (r: Option<Address>)
      reads this
      ensures r.Some? ==> r.value.id == id && r.value in addresses
      ensures r.None? ==> forall a :: a in addresses ==> a.id != id
    {
      var i := FindAddress(addresses, id);
      if i < |addresses| then Some(addresses[i]) else None
    }

    /** AddAsync. */
    method Add(address: Address)
      modifies this
      ensures addresses == old(addresses) + [address]
    {
      addresses := addresses + [address];
    }

    /** UpdateAsync: the stored entry with the address's id takes its values;
        the service only passes addresses it has just read. */
    method Update(address: Address)
      modifies this
      ensures var i := FindAddress(old(addresses), address.id);
        addresses == if i < |old(addresses)| then old(addresses)[i := address] else old(addresses)
    {
      var i := FindAddress(addresses, address.id);
      if i < |addresses| {
        addresses := addresses[i := address];
      }
    }

    /** DeleteAsync: the entry with the address's id is removed. */
    method Delete(address: Address)
      modifies this
      ensures var i := FindAddress(old(addresses), address.id);
        addresses == if i < |old(addresses)| then Removed(old(addresses), i) else old(addresses)
    {
      var i := FindAddress(addresses, address.id);
      if i < |addresses| {
        addresses := addresses[..i] + addresses[i + 1..];
      }
    }

    /** UnsetDefaultAsync: the user's first default address stops being default. */
    method UnsetDefault(userId: Guid)
      modifies this
      ensures addresses == Unset(old(addresses), userId)
    {
      var i := 0;
      while i < |addresses| && !(addresses[i].userId == userId && addresses[i].isDefault)
        invariant 0 <= i <= |addresses|
        invariant forall k :: 0 <= k < i ==> !(addresses[k].userId == userId && addresses[k].isDefault)
      {
        i := i + 1;
      }
      FirstDefaultIs(addresses, userId, i);
      if i < |addresses| {
        addresses := addresses[i := addresses[i].(isDefault := false)];
      }
    }
  }

  /** FirstDefault is the first index holding one of the user's defaults. */
  lemma {:induction false} FirstDefaultIs(addresses: seq<Address>, userId: Guid, i: nat)
    requires i <= |addresses|
    requires i < |addresses| ==> addresses[i].userId == userId && addresses[i].isDefault
    requires forall k :: 0 <= k < i ==> !(addresses[k].userId == userId && addresses[k].isDefault)
    ensures FirstDefault(addresses, userId) == i
  {
    if i > 0 {
      FirstDefaultIs(addresses[1..], userId, i - 1);
    }
  }

  /** Unsetting a default changes no id, so every address is still found
      where it was. */
  lemma UnsetKeepsPositions(addresses: seq<Address>, userId: Guid, id: Guid)
    ensures FindAddress(Unset(addresses, userId), id) == FindAddress(addresses, id)
  {
    UnsetTouchesOnlyTheUser(addresses, userId);
    FindAddressByIds(addresses, Unset(addresses, userId), id);
  }

  lemma {:induction false} FindAddressByIds(a: seq<Address>, b: seq<Address>, id: Guid)
    requires |a| == |b| && forall k :: 0 <= k < |a| ==> a[k].id == b[k].id
    ensures FindAddress(a, id) == FindAddress(b, id)
  {
    if a != [] {
      FindAddressByIds(a[1..], b[1..], id);
    }
  }

  /** ShippingAddressService over its repository. */
  class ShippingAddressService {
    const repo: ShippingAddressRepository

    constructor (repo: ShippingAddressRepository)
      ensures this.repo == repo
    {
      this.repo := repo;
    }

    /** GetAddressesAsync: the user's addresses as DTOs, defaults first. */
    function GetAddresses(userId: Guid): (r: seq<AddressDto>)
      reads repo
      ensures |r| == |repo.GetByUserId(userId)|
      ensures forall k :: 0 <= k < |r| ==> r[k] == ToDto(repo.GetByUserId(userId)[k])
    {
      var list := repo.GetByUserId(userId);
      seq(|list|, k requires 0 <= k < |list| => ToDto(list[k]))
    }

    /** CreateAsync: a default address first clears the user's current
        default; the new address is then added. */
    method Create(userId: Guid, form: AddressForm, id: Guid, now: int) returns (ok: bool)
      modifies repo
      ensures ok
      ensures repo.addresses == Created(old(repo.addresses), userId, form, id, now)
    {
      if form.isDefault {
        repo.UnsetDefault(userId);
      }
      repo.Add(NewAddress(userId, form, id, now));
      ok := true;
    }

    /** UpdateAsync: refused for a missing address or another user's; otherwise
        a default address first clears the user's current default and every
        field of the form is copied. */
    method Update(id: Guid, userId: Guid, form: AddressForm, now: int) returns (r: Outcome<()>)
      modifies repo
      ensures var i := FindAddress(old(repo.addresses), id);
        r.Err? <==> i == |old(repo.addresses)| || old(repo.addresses)[i].userId != userId
      ensures r.Err? ==> r == Err("Không thể cập nhật địa chỉ.") && repo.addresses == old(repo.addresses)
      ensures r.Ok? ==>
        repo.addresses == Edited(old(repo.addresses), FindAddress(old(repo.addresses), id), userId, form, now)
    {
      var found := repo.GetById(id);
      if found.None? || found.value.userId != userId {
        return Err("Không thể cập nhật địa chỉ.");
      }
      ghost var before := repo.addresses;
      ghost var i := FindAddress(before, id);
      if form.isDefault {
        repo.UnsetDefault(userId);
        UnsetKeepsPositions(before, userId, id);
        UnsetTouchesOnlyTheUser(before, userId);
      }
      repo.Update(Copied(found.value, form, now));
      r := Ok(());
    }

    /** DeleteAsync: refused for a missing address or another user's. */
    method Delete(id: Guid, userId: Guid) returns (r: Outcome<()>)
      modifies repo
      ensures var i := FindAddress(old(repo.addresses), id);
        r.Err? <==> i == |old(repo.addresses)| || old(repo.addresses)[i].userId != userId
      ensures r.Err? ==> r == Err("Không thể xóa địa chỉ.") && repo.addresses == old(repo.addresses)
      ensures r.Ok? ==> repo.addresses == Removed(old(repo.addresses), FindAddress(old(repo.addresses), id))
    {
      var found := repo.GetById(id);
      if found.None? || found.value.userId != userId {
        return Err("Không thể xóa địa chỉ.");
      }
      repo.Delete(found.value);
      r := Ok(());
    }

    /** SetDefaultAsync: refused for a missing address or another user's;
        otherwise the user's current default is cleared and the address
        becomes default. */
    method SetDefault(id: Guid, userId: Guid, now: int) returns (r: Outcome<()>)
      modifies repo
      ensures var i := FindAddress(old(repo.addresses), id);
        r.Err? <==> i == |old(repo.addresses)| || old(repo.addresses)[i].userId != userId
      ensures r.Err? ==> r == Err("Không tìm thấy địa chỉ.") && repo.addresses == old(repo.addresses)
      ensures r.Ok? ==>
        repo.addresses == MadeDefault(old(repo.addresses), FindAddress(old(repo.addresses), id), userId, now)
    {
      var found := repo.GetById(id);
      if found.None? || found.value.userId != userId {
        return Err("Không tìm thấy địa chỉ.");
      }
      ghost var before := repo.addresses;
      repo.UnsetDefault(userId);
      UnsetKeepsPositions(before, userId, id);
      UnsetTouchesOnlyTheUser(before, userId);
      repo.Update(found.value.(isDefault := true, updatedAt := now));
      r := Ok(());
    }
  }
}
