/** The admin user list (fontend/src/pages/admin/UsersManager.tsx): the
    mapping between the server's role numbers and the role names, the row
    numbering of a fetched page, and the parsing of the form's yes/no
    fields. */
module UsersManager {
  import VNPayService

  /** A user as the server sends it. */
  datatype UserItem = UserItem(userId: string, username: string, email: string, phoneNumber: string, role: int)

  /** A table row: the user with its key, its row number and its role name. */
  datatype UserRow = UserRow(key: string, stt: int, userId: string, username: string, email: string,
                             phoneNumber: string, role: string)

  /** mapEnumToRole: 0, 1 and 2 name Client, Seller and Admin; any other
      number falls back to Client. */
  function MapEnumToRole(roleEnum: int): (role: string)
    ensures role == "Client" || role == "Seller" || role == "Admin"
    ensures roleEnum == 1 <==> role == "Seller"
    ensures roleEnum == 2 <==> role == "Admin"
    ensures role == "Client" <==> roleEnum != 1 && roleEnum != 2
  {
    match roleEnum
    case 0 => "Client"
    case 1 => "Seller"
    case 2 => "Admin"
    case _ => "Client"
  }

  /** mapRoleToEnum: Client, Seller and Admin are 0, 1 and 2; any other
      string is 0. */
  function MapRoleToEnum(role: string): (roleEnum: int)
    ensures 0 <= roleEnum <= 2
    ensures roleEnum == 1 <==> role == "Seller"
    ensures roleEnum == 2 <==> role == "Admin"
    ensures roleEnum == 0 <==> role != "Seller" && role != "Admin"
  {
    if role == "Client" then 0
    else if role == "Seller" then 1
    else if role == "Admin" then 2
    else 0
  }

  /** The two mappings are inverse on the three roles. */
  lemma RoleRoundTrip(n: int, role: string)
    ensures 0 <= n <= 2 ==> MapRoleToEnum(MapEnumToRole(n)) == n
    ensures (role == "Client" || role == "Seller" || role == "Admin") ==> MapEnumToRole(MapRoleToEnum(role)) == role
    ensures MapEnumToRole(MapRoleToEnum(role)) == (if role == "Seller" || role == "Admin" then role else "Client")
  {
  }

  /** `user.userId || index.toString()`: the id, or the index when the id is empty. */
  function RowKey(userId: string, index: nat): string
  {
    if userId != "" then userId else VNPayService.DecimalString(index)
  }

  /** fetchUsers: items.map((user, index) => ...) over a fetched page. */
  function NumberRows(items: seq<UserItem>, page: int, pageSize: int): (rows: seq<UserRow>)
  {
    seq(|items|, index requires 0 <= index < |items| =>
      var u := items[index];
      UserRow(RowKey(u.userId, index), (page - 1) * pageSize + index + 1, u.userId, u.username, u.email,
              u.phoneNumber, MapEnumToRole(u.role)))
  }

  /** Each row keeps its user's fields, the first row of page p is number
      (p-1)·pageSize + 1, the numbers go up by one, and the rows of pages that
      follow each other continue the numbering. */
  lemma RowsNumbered(items: seq<UserItem>, page: int, pageSize: int)
    ensures var rows := NumberRows(items, page, pageSize);
      && |rows| == |items|
      && (forall k :: 0 <= k < |rows| ==>
            rows[k].userId == items[k].userId && rows[k].username == items[k].username &&
            rows[k].email == items[k].email && rows[k].phoneNumber == items[k].phoneNumber &&
            MapRoleToEnum(rows[k].role) == (if 0 <= items[k].role <= 2 then items[k].role else 0))
      && (|rows| > 0 ==> rows[0].stt == (page - 1) * pageSize + 1)
      && (forall k :: 0 <= k < |rows| - 1 ==> rows[k + 1].stt == rows[k].stt + 1)
      && (|items| == pageSize ==> forall k :: 0 <= k < |rows| ==>
            rows[k].stt + pageSize == NumberRows(items, page + 1, pageSize)[k].stt)
  {
    var rows := NumberRows(items, page, pageSize);
    forall k | 0 <= k < |rows|
      ensures MapRoleToEnum(rows[k].role) == (if 0 <= items[k].role <= 2 then items[k].role else 0)
    {
      RoleRoundTrip(items[k].role, "");
    }
  }

  /** Row keys are the user ids, and a row without an id is keyed by its
      position, so keys of id-less rows never clash. */
  lemma RowKeys(items: seq<UserItem>, page: int, pageSize: int, i: nat, j: nat)
    requires i < |items| && j < |items| && i != j
    requires items[i].userId == "" && items[j].userId == ""
    ensures NumberRows(items, page, pageSize)[i].key != NumberRows(items, page, pageSize)[j].key
  {
    VNPayService.DecimalStringRoundTrip(i);
    VNPayService.DecimalStringRoundTrip(j);
  }

  /** `setTotal(totalCount || items.length)`: a zero count falls back to the page length. */
  function Total(totalCount: int, pageLength: nat): (t: int)
    ensures totalCount != 0 ==> t == totalCount
    ensures totalCount == 0 ==> t == pageLength
  {
    if totalCount != 0 then totalCount else pageLength
  }

  /** boolean.toString(), as handleEdit writes it into the form. */
  function BoolToString(b: bool): string
  {
    if b then "true" else "false"
  }

  /** `values.isVerified === 'true'`, and the same for isActive. */
  function ParseFormBool(value: string): (b: bool)
    ensures b <==> value == "true"
  {
    value == "true"
  }

  /** A flag written by handleEdit is read back unchanged by handleSubmit,
      and every other string than "true" reads as false. */
  lemma FormBoolRoundTrip(b: bool, value: string)
    ensures ParseFormBool(BoolToString(b)) == b
    ensures value != "true" ==> !ParseFormBool(value)
  {
  }
}
