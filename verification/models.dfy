/** The JSON records: printers and readers, and exactly when they undo each other. */
module Models {
  import opened Values
  import opened JsonSpec
  import opened JsonTrees

  datatype User = User(id: int, name: string, email: string, passwordHash: string, balanceDkkCent: int)
  datatype Coord = Coord(id: int, x: int, y: int)
  datatype Product = Product(id: int, name: string, description: string, priceDkkCent: int, coordId: int,
                             barcode: string)
  datatype ProductPrice = ProductPrice(id: int, productId: int, priceDkkCent: int)
  datatype UsersRegisterReq = UsersRegisterReq(name: string, email: string, password: string)
  datatype SessionsLoginReq = SessionsLoginReq(email: string, password: string)
  datatype ProductsCreateReq = ProductsCreateReq(name: string, description: string, priceDkkCent: int, coordId: int,
                                                 barcode: string)
  datatype ProductsCoordsSetReq = ProductsCoordsSetReq(productId: int, x: int, y: int)

  const INT64_MAX: int := TWO_63 - 1

  /** What a 64-bit integer field can hold. */
  predicate Int64(n: int) {
    -TWO_63 <= n < TWO_63
  }

  // ---------- Reading fields ----------

  datatype Kind = NumberKind | StringKind

  predicate IsKind(v: Json, k: Kind) {
    if k == NumberKind then v.Number? else v.String?
  }

  /** The value of the leading digits, as `strtoll` reads them. */
  function Leading(s: string, n: nat): nat {
    if s != [] && IsDigit(s[0]) then Leading(s[1..], 10 * n + (s[0] as int - '0' as int)) else n
  }

  function StrToLL(s: string): int {
    if Leading(s, 0) > INT64_MAX then INT64_MAX else Leading(s, 0)
  }

  /** A JSON object that has all fields, each of its kind. */
  predicate ObjConforms(json: Option<Json>, fields: seq<(string, Kind)>) {
    json.Some? && json.value.Object? &&
    forall i :: 0 <= i < |fields| ==>
      FieldOf(json.value.fields, fields[i].0).Some? &&
        IsKind(FieldOf(json.value.fields, fields[i].0).value, fields[i].1)
  }

  function GetInt(json: Option<Json>, key: string): int {
    if json.Some? && json.value.Object? && FieldOf(json.value.fields, key).Some? &&
      FieldOf(json.value.fields, key).value.Number?
    then StrToLL(FieldOf(json.value.fields, key).value.text) else 0
  }

  function GetStr(json: Option<Json>, key: string): string {
    if json.Some? && json.value.Object? && FieldOf(json.value.fields, key).Some? &&
      FieldOf(json.value.fields, key).value.String?
    then FieldOf(json.value.fields, key).value.text else ""
  }

  function Power10(k: nat): nat {
    if k == 0 then 1 else 10 * Power10(k - 1)
  }

  lemma LeadingOne(d: nat, more: string, acc: nat)
    requires d < 10
    ensures Leading([Digit(d)] + more, acc) == Leading(more, 10 * acc + d)
  {
    assert ([Digit(d)] + more)[1..] == more;
  }

  /** Printed digits are read as what was there times a power of ten, and the number. */
  lemma {:induction false} LeadingDigits(n: nat, more: string, acc: nat)
    ensures Leading(Digits(n) + more, acc) == Leading(more, acc * Power10(|Digits(n)|) + n)
    decreases n
  {
    hide Leading;
    if n < 10 {
      LeadingOne(n, more, acc);
      assert Power10(1) == 10 * Power10(0);
    } else {
      var d := [Digit(n % 10)];
      assert Digits(n) + more == Digits(n / 10) + (d + more);
      LeadingDigits(n / 10, d + more, acc);
      LeadingOne(n % 10, more, acc * Power10(|Digits(n / 10)|) + n / 10);
      TenTimes(acc, Power10(|Digits(n / 10)|));
    }
  }

  lemma TenTimes(a: nat, p: nat)
    ensures 10 * (a * p) == a * (10 * p)
  {}

  lemma {:induction false} IntReadBack(n: int)
    requires 0 <= n && Int64(n)
    ensures StrToLL(Digits(n)) == n
  {
    LeadingDigits(n, [], 0);
    assert Digits(n) + [] == Digits(n);
  }

  // ---------- Records ----------

  /** All integers fit, all strings are C strings. */
  predicate Storable(fs: seq<Field>) {
    forall i :: 0 <= i < |fs| ==> if fs[i].IntField? then Int64(fs[i].n) else NoNul(fs[i].s)
  }

  predicate Plain(key: string) {
    Clean(key) && NoNul(key)
  }

  predicate PlainKeys(fs: seq<Field>) {
    && (forall i :: 0 <= i < |fs| ==> Plain(fs[i].key))
    && (forall i, j :: 0 <= i < j < |fs| ==> fs[i].key != fs[j].key)
  }

  function KindOf(f: Field): Kind {
    if f.IntField? then NumberKind else StringKind
  }

  function Kinds(fs: seq<Field>): (ks: seq<(string, Kind)>)
    ensures |ks| == |fs| && forall i :: 0 <= i < |fs| ==> ks[i] == (fs[i].key, KindOf(fs[i]))
  {
    seq(|fs|, i requires 0 <= i < |fs| => (fs[i].key, KindOf(fs[i])))
  }

  /** The field is read as it was printed. */
  predicate ReadAs(json: Option<Json>, f: Field) {
    if f.IntField? then GetInt(json, f.key) == f.n else GetStr(json, f.key) == f.s
  }

  /** The text of any record is read as the record exactly when every integer is non-negative and
    * every string is free of quotes and backslashes. */
  lemma {:induction false} RecordRoundTrip(fs: seq<Field>)
    requires fs != [] && PlainKeys(fs) && Storable(fs)
    ensures var json := JsonParse(ObjectText(fs));
      ObjConforms(json, Kinds(fs)) && (forall i :: 0 <= i < |fs| ==> ReadAs(json, fs[i])) <==> AllGood(fs)
  {
    hide JsonParse, ObjectText, Digits, Clean;
    assert AllFine(fs) by {
      forall i | 0 <= i < |fs| ensures Fine(fs[i]) {
        assert Plain(fs[i].key);
      }
    }
    ObjectRoundTrip(fs);
    var json := JsonParse(ObjectText(fs));
    if AllGood(fs) {
      forall i | 0 <= i < |fs| ensures FieldOf(json.value.fields, fs[i].key) == Some(ValueOf(fs[i])) &&
        ReadAs(json, fs[i]) {
        if fs[i].IntField? {
          IntReadBack(fs[i].n);
        }
      }
    } else if ObjConforms(json, Kinds(fs)) {
      var i :| 0 <= i < |fs| && fs[i].StrField? && FieldOf(json.value.fields, fs[i].key) != Some(String(fs[i].s));
      assert Kinds(fs)[i] == (fs[i].key, StringKind);
      assert !ReadAs(json, fs[i]);
    }
  }

  // ---------- What the text says ----------

  /** Keys and values in order. */
  function KVs(fs: seq<Field>): (kvs: seq<KV>)
    requires AllGood(fs)
    ensures |kvs| == |fs|
  {
    seq(|fs|, i requires 0 <= i < |fs| => KV(fs[i].key, ValueOf(fs[i])))
  }

  lemma FieldIsText(f: Field)
    requires Good(f)
    ensures JsonSpec.FieldText(f) == JsonTrees.FieldText(KV(f.key, ValueOf(f)), Style("", false))
  {}

  lemma {:induction false} FieldsAreText(fs: seq<Field>)
    requires AllGood(fs)
    ensures MoreText(fs) + ['}'] == FieldsText(KVs(fs), Style("", false))
    decreases |fs|
  {
    hide JsonSpec.FieldText, JsonTrees.FieldText, ValueOf, Good;
    if fs != [] {
      FieldIsText(fs[0]);
      FieldsAreText(fs[1..]);
      assert KVs(fs)[1..] == KVs(fs[1..]);
    }
  }

  lemma {:induction false} ObjectIsText(fs: seq<Field>)
    requires fs != [] && AllGood(fs)
    ensures ObjectText(fs) == Text(Object(KVs(fs)), Style("", false))
  {
    hide JsonSpec.FieldText, JsonTrees.FieldText, ValueOf, Good;
    FieldIsText(fs[0]);
    FieldsAreText(fs[1..]);
    assert KVs(fs)[1..] == KVs(fs[1..]);
  }

  lemma {:induction false} DigitsReadable(n: nat)
    ensures NumberText(Digits(n))
  {
    DigitsAreDigits(n);
    var s := Digits(n);
    forall i | 0 <= i < |s| ensures s[i] in "0123456789." {
      DigitListed(s[i]);
    }
    NoPoints(s);
  }

  lemma {:induction false} NoPoints(s: string)
    requires forall i :: 0 <= i < |s| ==> IsDigit(s[i])
    ensures Points(s) == 0
    decreases |s|
  {
    if s != [] {
      NoPoints(s[1..]);
    }
  }

  /** The text of a record of good fields is an object with those keys and values, in order. */
  lemma {:induction false} RecordObject(fs: seq<Field>)
    requires fs != [] && PlainKeys(fs) && Storable(fs) && AllGood(fs)
    ensures JsonParse(ObjectText(fs)) == Some(Object(KVs(fs)))
  {
    hide Text, NumberText, Digits, JsonParse;
    var kvs, y := KVs(fs), Style("", false);
    forall i | 0 <= i < |kvs|
      ensures NoNul(kvs[i].key) && Clean(kvs[i].key) && Readable(kvs[i].val) && Printable(kvs[i].val, y)
    {
      assert Plain(fs[i].key) && Good(fs[i]);
      if fs[i].IntField? {
        DigitsReadable(fs[i].n);
      }
    }
    ObjectIsText(fs);
    TreeRoundTrip(Object(kvs), y, []);
    assert Text(Object(kvs), y) + [] == Text(Object(kvs), y);
  }

  // ---------- Keys ----------

  /** Every key that records are printed with. */
  const KEYS: seq<string> := [
    "id", "name", "email", "password_hash", "balance_dkk_cent", "x", "y", "description", "price_dkk_cent",
    "coord_id", "barcode", "product_id", "password"]

  lemma KeysPlain()
    ensures forall i :: 0 <= i < |KEYS| ==> Plain(KEYS[i])
  {}

  /** Keys of the list are plain. */
  lemma ListedKeys(fs: seq<Field>)
    requires forall i :: 0 <= i < |fs| ==> fs[i].key in KEYS
    ensures forall i :: 0 <= i < |fs| ==> Plain(fs[i].key)
  {
    KeysPlain();
    hide Plain;
    forall i | 0 <= i < |fs| ensures Plain(fs[i].key) {
      var k :| 0 <= k < |KEYS| && KEYS[k] == fs[i].key;
    }
  }

  lemma KindsAre(fs: seq<Field>, ks: seq<(string, Kind)>)
    requires |ks| == |fs| && forall i :: 0 <= i < |fs| ==> ks[i] == (fs[i].key, KindOf(fs[i]))
    ensures Kinds(fs) == ks
  {}

  // ---------- User ----------

  const USER_KINDS: seq<(string, Kind)> := [
    ("id", NumberKind), ("name", StringKind), ("email", StringKind), ("password_hash", StringKind),
    ("balance_dkk_cent", NumberKind)]

  /** The fields in the order of the format string. */
  function UserFields(m: User): seq<Field> {
    [
      IntField("id", m.id), StrField("name", m.name), StrField("email", m.email),
      StrField("password_hash", m.passwordHash), IntField("balance_dkk_cent", m.balanceDkkCent)]
  }

  function UserToJson(m: User): string {
    ObjectText(UserFields(m))
  }

  function UserFromJson(json: Option<Json>): Option<User> {
    if !ObjConforms(json, USER_KINDS) then None else
    Some(User(
      GetInt(json, "id"), GetStr(json, "name"), GetStr(json, "email"), GetStr(json, "password_hash"),
      GetInt(json, "balance_dkk_cent")))
  }

  lemma {:induction false} UserKeys(m: User)
    ensures PlainKeys(UserFields(m)) && Kinds(UserFields(m)) == USER_KINDS
  {
    hide Plain;
    var fs := UserFields(m);
    ListedKeys(fs);
    KindsAre(fs, USER_KINDS);
  }

  lemma {:induction false} UserRoundTrip(m: User)
    requires Int64(m.id) && NoNul(m.name) && NoNul(m.email) && NoNul(m.passwordHash) && Int64(m.balanceDkkCent)
    ensures UserFromJson(JsonParse(UserToJson(m))) == Some(m) <==>
            m.id >= 0 && Clean(m.name) && Clean(m.email) && Clean(m.passwordHash) && m.balanceDkkCent >= 0
  {
    hide JsonParse, ObjectText, ObjConforms, PlainKeys, Clean, NoNul, Int64, Kinds;
    var fs := UserFields(m);
    UserKeys(m);
    RecordRoundTrip(fs);
    var json := JsonParse(UserToJson(m));
    assert AllGood(fs) <==> Good(fs[0]) && Good(fs[1]) && Good(fs[2]) && Good(fs[3]) && Good(fs[4]);
    assert (forall i :: 0 <= i < |fs| ==> ReadAs(json, fs[i])) <==>
           ReadAs(json, fs[0]) && ReadAs(json, fs[1]) && ReadAs(json, fs[2]) && ReadAs(json, fs[3]) &&
             ReadAs(json, fs[4]);
  }

  /** Which key holds which field. */
  function UserJson(m: User): (v: Json)
    requires m.id >= 0 && m.balanceDkkCent >= 0
    ensures v.Object?
  {
    Object([
      KV("id", Number(Digits(m.id))), KV("name", String(m.name)), KV("email", String(m.email)),
      KV("password_hash", String(m.passwordHash)),
      KV("balance_dkk_cent", Number(Digits(m.balanceDkkCent)))])
  }

  lemma {:induction false} UserObject(m: User)
    requires 0 <= m.id && Int64(m.id) && NoNul(m.name) && Clean(m.name)
    requires NoNul(m.email) && Clean(m.email) && NoNul(m.passwordHash) && Clean(m.passwordHash)
    requires 0 <= m.balanceDkkCent && Int64(m.balanceDkkCent)
    ensures JsonParse(UserToJson(m)) == Some(UserJson(m))
  {
    hide JsonParse, ObjectText, PlainKeys, Clean, NoNul, Kinds, Digits;
    var fs := UserFields(m);
    UserKeys(m);
    assert Good(fs[0]) && Good(fs[1]) && Good(fs[2]) && Good(fs[3]) && Good(fs[4]);
    assert KVs(fs) == UserJson(m).fields;
    RecordObject(fs);
  }

  // ---------- Coord ----------

  const COORD_KINDS: seq<(string, Kind)> := [("id", NumberKind), ("x", NumberKind), ("y", NumberKind)]

  /** The fields in the order of the format string. */
  function CoordFields(m: Coord): seq<Field> {
    [IntField("id", m.id), IntField("x", m.x), IntField("y", m.y)]
  }

  function CoordToJson(m: Coord): string {
    ObjectText(CoordFields(m))
  }

  function CoordFromJson(json: Option<Json>): Option<Coord> {
    if !ObjConforms(json, COORD_KINDS) then None else
    Some(Coord(GetInt(json, "id"), GetInt(json, "x"), GetInt(json, "y")))
  }

  lemma {:induction false} CoordKeys(m: Coord)
    ensures PlainKeys(CoordFields(m)) && Kinds(CoordFields(m)) == COORD_KINDS
  {
    hide Plain;
    var fs := CoordFields(m);
    ListedKeys(fs);
    KindsAre(fs, COORD_KINDS);
  }

  lemma {:induction false} CoordRoundTrip(m: Coord)
    requires Int64(m.id) && Int64(m.x) && Int64(m.y)
    ensures CoordFromJson(JsonParse(CoordToJson(m))) == Some(m) <==>
            m.id >= 0 && m.x >= 0 && m.y >= 0
  {
    hide JsonParse, ObjectText, ObjConforms, PlainKeys, Clean, NoNul, Int64, Kinds;
    var fs := CoordFields(m);
    CoordKeys(m);
    RecordRoundTrip(fs);
    var json := JsonParse(CoordToJson(m));
    assert AllGood(fs) <==> Good(fs[0]) && Good(fs[1]) && Good(fs[2]);
    assert (forall i :: 0 <= i < |fs| ==> ReadAs(json, fs[i])) <==>
           ReadAs(json, fs[0]) && ReadAs(json, fs[1]) && ReadAs(json, fs[2]);
  }

  /** Which key holds which field. */
  function CoordJson(m: Coord): (v: Json)
    requires m.id >= 0 && m.x >= 0 && m.y >= 0
    ensures v.Object?
  {
    Object([
      KV("id", Number(Digits(m.id))), KV("x", Number(Digits(m.x))), KV("y", Number(Digits(m.y)))])
  }

  lemma {:induction false} CoordObject(m: Coord)
    requires 0 <= m.id && Int64(m.id) && 0 <= m.x && Int64(m.x)
    requires 0 <= m.y && Int64(m.y)
    ensures JsonParse(CoordToJson(m)) == Some(CoordJson(m))
  {
    hide JsonParse, ObjectText, PlainKeys, Clean, NoNul, Kinds, Digits;
    var fs := CoordFields(m);
    CoordKeys(m);
    assert Good(fs[0]) && Good(fs[1]) && Good(fs[2]);
    assert KVs(fs) == CoordJson(m).fields;
    RecordObject(fs);
  }

  // ---------- Product ----------

  const PRODUCT_KINDS: seq<(string, Kind)> := [
    ("id", NumberKind), ("name", StringKind), ("description", StringKind), ("price_dkk_cent", NumberKind),
    ("coord_id", NumberKind), ("barcode", StringKind)]

  /** The fields in the order of the format string. */
  function ProductFields(m: Product): seq<Field> {
    [
      IntField("id", m.id), StrField("name", m.name), StrField("description", m.description),
      IntField("price_dkk_cent", m.priceDkkCent), IntField("coord_id", m.coordId),
      StrField("barcode", m.barcode)]
  }

  function ProductToJson(m: Product): string {
    ObjectText(ProductFields(m))
  }

  function ProductFromJson(json: Option<Json>): Option<Product> {
    if !ObjConforms(json, PRODUCT_KINDS) then None else
    Some(Product(
      GetInt(json, "id"), GetStr(json, "name"), GetStr(json, "description"), GetInt(json, "price_dkk_cent"),
      GetInt(json, "coord_id"), GetStr(json, "barcode")))
  }

  lemma {:induction false} ProductKeys(m: Product)
    ensures PlainKeys(ProductFields(m)) && Kinds(ProductFields(m)) == PRODUCT_KINDS
  {
    hide Plain;
    var fs := ProductFields(m);
    ListedKeys(fs);
    KindsAre(fs, PRODUCT_KINDS);
  }

  lemma {:induction false} ProductRoundTrip(m: Product)
    requires Int64(m.id) && NoNul(m.name) && NoNul(m.description) && Int64(m.priceDkkCent) && Int64(m.coordId)
    requires NoNul(m.barcode)
    ensures ProductFromJson(JsonParse(ProductToJson(m))) == Some(m) <==>
            m.id >= 0 && Clean(m.name) && Clean(m.description) && m.priceDkkCent >= 0 && m.coordId >= 0 &&
              Clean(m.barcode)
  {
    hide JsonParse, ObjectText, ObjConforms, PlainKeys, Clean, NoNul, Int64, Kinds;
    var fs := ProductFields(m);
    ProductKeys(m);
    RecordRoundTrip(fs);
    var json := JsonParse(ProductToJson(m));
    assert AllGood(fs) <==> Good(fs[0]) && Good(fs[1]) && Good(fs[2]) && Good(fs[3]) && Good(fs[4]) && Good(fs[5]);
    assert (forall i :: 0 <= i < |fs| ==> ReadAs(json, fs[i])) <==>
           ReadAs(json, fs[0]) && ReadAs(json, fs[1]) && ReadAs(json, fs[2]) && ReadAs(json, fs[3]) &&
             ReadAs(json, fs[4]) && ReadAs(json, fs[5]);
  }

  /** Which key holds which field. */
  function ProductJson(m: Product): (v: Json)
    requires m.id >= 0 && m.priceDkkCent >= 0 && m.coordId >= 0
    ensures v.Object?
  {
    Object([
      KV("id", Number(Digits(m.id))), KV("name", String(m.name)),
      KV("description", String(m.description)), KV("price_dkk_cent", Number(Digits(m.priceDkkCent))),
      KV("coord_id", Number(Digits(m.coordId))), KV("barcode", String(m.barcode))])
  }

  lemma {:induction false} ProductObject(m: Product)
    requires 0 <= m.id && Int64(m.id) && NoNul(m.name) && Clean(m.name)
    requires NoNul(m.description) && Clean(m.description) && 0 <= m.priceDkkCent && Int64(m.priceDkkCent)
    requires 0 <= m.coordId && Int64(m.coordId) && NoNul(m.barcode) && Clean(m.barcode)
    ensures JsonParse(ProductToJson(m)) == Some(ProductJson(m))
  {
    hide JsonParse, ObjectText, PlainKeys, Clean, NoNul, Kinds, Digits;
    var fs := ProductFields(m);
    ProductKeys(m);
    assert Good(fs[0]) && Good(fs[1]) && Good(fs[2]) && Good(fs[3]) && Good(fs[4]) && Good(fs[5]);
    assert KVs(fs) == ProductJson(m).fields;
    RecordObject(fs);
  }

  // ---------- ProductPrice ----------

  const PRODUCT_PRICE_KINDS: seq<(string, Kind)> := [
    ("id", NumberKind), ("product_id", NumberKind), ("price_dkk_cent", NumberKind)]

  /** The fields in the order of the format string. */
  function ProductPriceFields(m: ProductPrice): seq<Field> {
    [IntField("id", m.id), IntField("product_id", m.productId), IntField("price_dkk_cent", m.priceDkkCent)]
  }

  function ProductPriceToJson(m: ProductPrice): string {
    ObjectText(ProductPriceFields(m))
  }

  function ProductPriceFromJson(json: Option<Json>): Option<ProductPrice> {
    if !ObjConforms(json, PRODUCT_PRICE_KINDS) then None else
    Some(ProductPrice(GetInt(json, "id"), GetInt(json, "product_id"), GetInt(json, "price_dkk_cent")))
  }

  lemma {:induction false} ProductPriceKeys(m: ProductPrice)
    ensures PlainKeys(ProductPriceFields(m)) && Kinds(ProductPriceFields(m)) == PRODUCT_PRICE_KINDS
  {
    hide Plain;
    var fs := ProductPriceFields(m);
    ListedKeys(fs);
    KindsAre(fs, PRODUCT_PRICE_KINDS);
  }

  lemma {:induction false} ProductPriceRoundTrip(m: ProductPrice)
    requires Int64(m.id) && Int64(m.productId) && Int64(m.priceDkkCent)
    ensures ProductPriceFromJson(JsonParse(ProductPriceToJson(m))) == Some(m) <==>
            m.id >= 0 && m.productId >= 0 && m.priceDkkCent >= 0
  {
    hide JsonParse, ObjectText, ObjConforms, PlainKeys, Clean, NoNul, Int64, Kinds;
    var fs := ProductPriceFields(m);
    ProductPriceKeys(m);
    RecordRoundTrip(fs);
    var json := JsonParse(ProductPriceToJson(m));
    assert AllGood(fs) <==> Good(fs[0]) && Good(fs[1]) && Good(fs[2]);
    assert (forall i :: 0 <= i < |fs| ==> ReadAs(json, fs[i])) <==>
           ReadAs(json, fs[0]) && ReadAs(json, fs[1]) && ReadAs(json, fs[2]);
  }

  /** Which key holds which field. */
  function ProductPriceJson(m: ProductPrice): (v: Json)
    requires m.id >= 0 && m.productId >= 0 && m.priceDkkCent >= 0
    ensures v.Object?
  {
    Object([
      KV("id", Number(Digits(m.id))), KV("product_id", Number(Digits(m.productId))),
      KV("price_dkk_cent", Number(Digits(m.priceDkkCent)))])
  }

  lemma {:induction false} ProductPriceObject(m: ProductPrice)
    requires 0 <= m.id && Int64(m.id) && 0 <= m.productId && Int64(m.productId)
    requires 0 <= m.priceDkkCent && Int64(m.priceDkkCent)
    ensures JsonParse(ProductPriceToJson(m)) == Some(ProductPriceJson(m))
  {
    hide JsonParse, ObjectText, PlainKeys, Clean, NoNul, Kinds, Digits;
    var fs := ProductPriceFields(m);
    ProductPriceKeys(m);
    assert Good(fs[0]) && Good(fs[1]) && Good(fs[2]);
    assert KVs(fs) == ProductPriceJson(m).fields;
    RecordObject(fs);
  }

  // ---------- UsersRegisterReq ----------

  const USERS_REGISTER_REQ_KINDS: seq<(string, Kind)> := [
    ("name", StringKind), ("email", StringKind), ("password", StringKind)]

  /** The fields in the order of the format string. */
  function UsersRegisterReqFields(m: UsersRegisterReq): seq<Field> {
    [StrField("name", m.name), StrField("email", m.email), StrField("password", m.password)]
  }

  function UsersRegisterReqToJson(m: UsersRegisterReq): string {
    ObjectText(UsersRegisterReqFields(m))
  }

  function UsersRegisterReqFromJson(json: Option<Json>): Option<UsersRegisterReq> {
    if !ObjConforms(json, USERS_REGISTER_REQ_KINDS) then None else
    Some(UsersRegisterReq(GetStr(json, "name"), GetStr(json, "email"), GetStr(json, "password")))
  }

  lemma {:induction false} UsersRegisterReqKeys(m: UsersRegisterReq)
    ensures PlainKeys(UsersRegisterReqFields(m)) && Kinds(UsersRegisterReqFields(m)) == USERS_REGISTER_REQ_KINDS
  {
    hide Plain;
    var fs := UsersRegisterReqFields(m);
    ListedKeys(fs);
    KindsAre(fs, USERS_REGISTER_REQ_KINDS);
  }

  lemma {:induction false} UsersRegisterReqRoundTrip(m: UsersRegisterReq)
    requires NoNul(m.name) && NoNul(m.email) && NoNul(m.password)
    ensures UsersRegisterReqFromJson(JsonParse(UsersRegisterReqToJson(m))) == Some(m) <==>
            Clean(m.name) && Clean(m.email) && Clean(m.password)
  {
    hide JsonParse, ObjectText, ObjConforms, PlainKeys, Clean, NoNul, Int64, Kinds;
    var fs := UsersRegisterReqFields(m);
    UsersRegisterReqKeys(m);
    RecordRoundTrip(fs);
    var json := JsonParse(UsersRegisterReqToJson(m));
    assert AllGood(fs) <==> Good(fs[0]) && Good(fs[1]) && Good(fs[2]);
    assert (forall i :: 0 <= i < |fs| ==> ReadAs(json, fs[i])) <==>
           ReadAs(json, fs[0]) && ReadAs(json, fs[1]) && ReadAs(json, fs[2]);
  }

  /** Which key holds which field. */
  function UsersRegisterReqJson(m: UsersRegisterReq): (v: Json)
    ensures v.Object?
  {
    Object([
      KV("name", String(m.name)), KV("email", String(m.email)), KV("password", String(m.password))])
  }

  lemma {:induction false} UsersRegisterReqObject(m: UsersRegisterReq)
    requires NoNul(m.name) && Clean(m.name) && NoNul(m.email) && Clean(m.email)
    requires NoNul(m.password) && Clean(m.password)
    ensures JsonParse(UsersRegisterReqToJson(m)) == Some(UsersRegisterReqJson(m))
  {
    hide JsonParse, ObjectText, PlainKeys, Clean, NoNul, Kinds, Digits;
    var fs := UsersRegisterReqFields(m);
    UsersRegisterReqKeys(m);
    assert Good(fs[0]) && Good(fs[1]) && Good(fs[2]);
    assert KVs(fs) == UsersRegisterReqJson(m).fields;
    RecordObject(fs);
  }

  // ---------- SessionsLoginReq ----------

  const SESSIONS_LOGIN_REQ_KINDS: seq<(string, Kind)> := [("email", StringKind), ("password", StringKind)]

  /** The fields in the order of the format string. */
  function SessionsLoginReqFields(m: SessionsLoginReq): seq<Field> {
    [StrField("email", m.email), StrField("password", m.password)]
  }

  function SessionsLoginReqToJson(m: SessionsLoginReq): string {
    ObjectText(SessionsLoginReqFields(m))
  }

  function SessionsLoginReqFromJson(json: Option<Json>): Option<SessionsLoginReq> {
    if !ObjConforms(json, SESSIONS_LOGIN_REQ_KINDS) then None else
    Some(SessionsLoginReq(GetStr(json, "email"), GetStr(json, "password")))
  }

  lemma {:induction false} SessionsLoginReqKeys(m: SessionsLoginReq)
    ensures PlainKeys(SessionsLoginReqFields(m)) && Kinds(SessionsLoginReqFields(m)) == SESSIONS_LOGIN_REQ_KINDS
  {
    hide Plain;
    var fs := SessionsLoginReqFields(m);
    ListedKeys(fs);
    KindsAre(fs, SESSIONS_LOGIN_REQ_KINDS);
  }

  lemma {:induction false} SessionsLoginReqRoundTrip(m: SessionsLoginReq)
    requires NoNul(m.email) && NoNul(m.password)
    ensures SessionsLoginReqFromJson(JsonParse(SessionsLoginReqToJson(m))) == Some(m) <==>
            Clean(m.email) && Clean(m.password)
  {
    hide JsonParse, ObjectText, ObjConforms, PlainKeys, Clean, NoNul, Int64, Kinds;
    var fs := SessionsLoginReqFields(m);
    SessionsLoginReqKeys(m);
    RecordRoundTrip(fs);
    var json := JsonParse(SessionsLoginReqToJson(m));
    assert AllGood(fs) <==> Good(fs[0]) && Good(fs[1]);
    assert (forall i :: 0 <= i < |fs| ==> ReadAs(json, fs[i])) <==>
           ReadAs(json, fs[0]) && ReadAs(json, fs[1]);
  }

  /** Which key holds which field. */
  function SessionsLoginReqJson(m: SessionsLoginReq): (v: Json)
    ensures v.Object?
  {
    Object([
      KV("email", String(m.email)), KV("password", String(m.password))])
  }

  lemma {:induction false} SessionsLoginReqObject(m: SessionsLoginReq)
    requires NoNul(m.email) && Clean(m.email) && NoNul(m.password) && Clean(m.password)
    ensures JsonParse(SessionsLoginReqToJson(m)) == Some(SessionsLoginReqJson(m))
  {
    hide JsonParse, ObjectText, PlainKeys, Clean, NoNul, Kinds, Digits;
    var fs := SessionsLoginReqFields(m);
    SessionsLoginReqKeys(m);
    assert Good(fs[0]) && Good(fs[1]);
    assert KVs(fs) == SessionsLoginReqJson(m).fields;
    RecordObject(fs);
  }

  // ---------- ProductsCreateReq ----------

  const PRODUCTS_CREATE_REQ_KINDS: seq<(string, Kind)> := [
    ("name", StringKind), ("description", StringKind), ("price_dkk_cent", NumberKind),
    ("coord_id", NumberKind), ("barcode", StringKind)]

  /** The fields in the order of the format string. */
  function ProductsCreateReqFields(m: ProductsCreateReq): seq<Field> {
    [
      StrField("name", m.name), StrField("description", m.description),
      IntField("price_dkk_cent", m.priceDkkCent), IntField("coord_id", m.coordId),
      StrField("barcode", m.barcode)]
  }

  function ProductsCreateReqToJson(m: ProductsCreateReq): string {
    ObjectText(ProductsCreateReqFields(m))
  }

  function ProductsCreateReqFromJson(json: Option<Json>): Option<ProductsCreateReq> {
    if !ObjConforms(json, PRODUCTS_CREATE_REQ_KINDS) then None else
    Some(ProductsCreateReq(
      GetStr(json, "name"), GetStr(json, "description"), GetInt(json, "price_dkk_cent"),
      GetInt(json, "coord_id"), GetStr(json, "barcode")))
  }

  lemma {:induction false} ProductsCreateReqKeys(m: ProductsCreateReq)
    ensures PlainKeys(ProductsCreateReqFields(m)) && Kinds(ProductsCreateReqFields(m)) == PRODUCTS_CREATE_REQ_KINDS
  {
    hide Plain;
    var fs := ProductsCreateReqFields(m);
    ListedKeys(fs);
    KindsAre(fs, PRODUCTS_CREATE_REQ_KINDS);
  }

  lemma {:induction false} ProductsCreateReqRoundTrip(m: ProductsCreateReq)
    requires NoNul(m.name) && NoNul(m.description) && Int64(m.priceDkkCent) && Int64(m.coordId) && NoNul(m.barcode)
    ensures ProductsCreateReqFromJson(JsonParse(ProductsCreateReqToJson(m))) == Some(m) <==>
            Clean(m.name) && Clean(m.description) && m.priceDkkCent >= 0 && m.coordId >= 0 && Clean(m.barcode)
  {
    hide JsonParse, ObjectText, ObjConforms, PlainKeys, Clean, NoNul, Int64, Kinds;
    var fs := ProductsCreateReqFields(m);
    ProductsCreateReqKeys(m);
    RecordRoundTrip(fs);
    var json := JsonParse(ProductsCreateReqToJson(m));
    assert AllGood(fs) <==> Good(fs[0]) && Good(fs[1]) && Good(fs[2]) && Good(fs[3]) && Good(fs[4]);
    assert (forall i :: 0 <= i < |fs| ==> ReadAs(json, fs[i])) <==>
           ReadAs(json, fs[0]) && ReadAs(json, fs[1]) && ReadAs(json, fs[2]) && ReadAs(json, fs[3]) &&
             ReadAs(json, fs[4]);
  }

  /** Which key holds which field. */
  function ProductsCreateReqJson(m: ProductsCreateReq): (v: Json)
    requires m.priceDkkCent >= 0 && m.coordId >= 0
    ensures v.Object?
  {
    Object([
      KV("name", String(m.name)), KV("description", String(m.description)),
      KV("price_dkk_cent", Number(Digits(m.priceDkkCent))), KV("coord_id", Number(Digits(m.coordId))),
      KV("barcode", String(m.barcode))])
  }

  lemma {:induction false} ProductsCreateReqObject(m: ProductsCreateReq)
    requires NoNul(m.name) && Clean(m.name) && NoNul(m.description) && Clean(m.description)
    requires 0 <= m.priceDkkCent && Int64(m.priceDkkCent) && 0 <= m.coordId && Int64(m.coordId)
    requires NoNul(m.barcode) && Clean(m.barcode)
    ensures JsonParse(ProductsCreateReqToJson(m)) == Some(ProductsCreateReqJson(m))
  {
    hide JsonParse, ObjectText, PlainKeys, Clean, NoNul, Kinds, Digits;
    var fs := ProductsCreateReqFields(m);
    ProductsCreateReqKeys(m);
    assert Good(fs[0]) && Good(fs[1]) && Good(fs[2]) && Good(fs[3]) && Good(fs[4]);
    assert KVs(fs) == ProductsCreateReqJson(m).fields;
    RecordObject(fs);
  }

  // ---------- ProductsCoordsSetReq ----------

  const PRODUCTS_COORDS_SET_REQ_KINDS: seq<(string, Kind)> := [
    ("product_id", NumberKind), ("x", NumberKind), ("y", NumberKind)]

  /** The fields in the order of the format string. */
  function ProductsCoordsSetReqFields(m: ProductsCoordsSetReq): seq<Field> {
    [IntField("product_id", m.productId), IntField("x", m.x), IntField("y", m.y)]
  }

  function ProductsCoordsSetReqToJson(m: ProductsCoordsSetReq): string {
    ObjectText(ProductsCoordsSetReqFields(m))
  }

  function ProductsCoordsSetReqFromJson(json: Option<Json>): Option<ProductsCoordsSetReq> {
    if !ObjConforms(json, PRODUCTS_COORDS_SET_REQ_KINDS) then None else
    Some(ProductsCoordsSetReq(GetInt(json, "product_id"), GetInt(json, "x"), GetInt(json, "y")))
  }

  lemma {:induction false} ProductsCoordsSetReqKeys(m: ProductsCoordsSetReq)
    ensures PlainKeys(ProductsCoordsSetReqFields(m))
    ensures Kinds(ProductsCoordsSetReqFields(m)) == PRODUCTS_COORDS_SET_REQ_KINDS
  {
    hide Plain;
    var fs := ProductsCoordsSetReqFields(m);
    ListedKeys(fs);
    KindsAre(fs, PRODUCTS_COORDS_SET_REQ_KINDS);
  }

  lemma {:induction false} ProductsCoordsSetReqRoundTrip(m: ProductsCoordsSetReq)
    requires Int64(m.productId) && Int64(m.x) && Int64(m.y)
    ensures ProductsCoordsSetReqFromJson(JsonParse(ProductsCoordsSetReqToJson(m))) == Some(m) <==>
            m.productId >= 0 && m.x >= 0 && m.y >= 0
  {
    hide JsonParse, ObjectText, ObjConforms, PlainKeys, Clean, NoNul, Int64, Kinds;
    var fs := ProductsCoordsSetReqFields(m);
    ProductsCoordsSetReqKeys(m);
    RecordRoundTrip(fs);
    var json := JsonParse(ProductsCoordsSetReqToJson(m));
    assert AllGood(fs) <==> Good(fs[0]) && Good(fs[1]) && Good(fs[2]);
    assert (forall i :: 0 <= i < |fs| ==> ReadAs(json, fs[i])) <==>
           ReadAs(json, fs[0]) && ReadAs(json, fs[1]) && ReadAs(json, fs[2]);
  }

  /** Which key holds which field. */
  function ProductsCoordsSetReqJson(m: ProductsCoordsSetReq): (v: Json)
    requires m.productId >= 0 && m.x >= 0 && m.y >= 0
    ensures v.Object?
  {
    Object([
      KV("product_id", Number(Digits(m.productId))), KV("x", Number(Digits(m.x))),
      KV("y", Number(Digits(m.y)))])
  }

  lemma {:induction false} ProductsCoordsSetReqObject(m: ProductsCoordsSetReq)
    requires 0 <= m.productId && Int64(m.productId) && 0 <= m.x && Int64(m.x)
    requires 0 <= m.y && Int64(m.y)
    ensures JsonParse(ProductsCoordsSetReqToJson(m)) == Some(ProductsCoordsSetReqJson(m))
  {
    hide JsonParse, ObjectText, PlainKeys, Clean, NoNul, Kinds, Digits;
    var fs := ProductsCoordsSetReqFields(m);
    ProductsCoordsSetReqKeys(m);
    assert Good(fs[0]) && Good(fs[1]) && Good(fs[2]);
    assert KVs(fs) == ProductsCoordsSetReqJson(m).fields;
    RecordObject(fs);
  }
}
