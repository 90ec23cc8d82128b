/**
 * The mock API the settings pages call: a fixed user profile, a profile update
 * that merges the supplied fields over it, a password change that only checks
 * the confirmation, and generated booking and wallet lists. The artificial
 * delays are not part of the model.
 */
module MockApi {
  import opened Common

  datatype User = User(
    id: string, fullName: string, userName: string, email: string,
    phoneNumber: string, dateOfBirth: string, gender: string,
    address: string, avatar: string)

  /** `Partial<User>`: `None` is a field the caller did not supply. */
  datatype PartialUser = PartialUser(
    id: Option<string>, fullName: Option<string>, userName: Option<string>,
    email: Option<string>, phoneNumber: Option<string>, dateOfBirth: Option<string>,
    gender: Option<string>, address: Option<string>, avatar: Option<string>)

  const NoChanges := PartialUser(None, None, None, None, None, None, None, None, None)

  /** The one profile the mock backend knows. */
  function FetchUserProfile(): (r: User)
    ensures r.id == "user-1" && r.fullName == "Mr. Raja" && r.userName == "raja123"
    ensures r.email == "raja123@gmail.com" && r.phoneNumber == "+1 (888) 000-0000"
    ensures r.dateOfBirth == "01/01/1990" && r.gender == "Male"
    ensures r.address == "00000 Artesia Blvd, Suite A-000"
    ensures r.avatar == "/placeholder.svg?height=80&width=80"
  {
    User(
      "user-1", "Mr. Raja", "raja123", "raja123@gmail.com", "+1 (888) 000-0000",
      "01/01/1990", "Male", "00000 Artesia Blvd, Suite A-000",
      "/placeholder.svg?height=80&width=80")
  }

  /** The names of a profile's fields. */
  datatype Key = Id | FullName | UserName | Email | PhoneNumber | DateOfBirth | Gender | Address | Avatar

  function Get(u: User, k: Key): string
  {
    match k
    case Id => u.id
    case FullName => u.fullName
    case UserName => u.userName
    case Email => u.email
    case PhoneNumber => u.phoneNumber
    case DateOfBirth => u.dateOfBirth
    case Gender => u.gender
    case Address => u.address
    case Avatar => u.avatar
  }

  function Supplied(p: PartialUser, k: Key): Option<string>
  {
    match k
    case Id => p.id
    case FullName => p.fullName
    case UserName => p.userName
    case Email => p.email
    case PhoneNumber => p.phoneNumber
    case DateOfBirth => p.dateOfBirth
    case Gender => p.gender
    case Address => p.address
    case Avatar => p.avatar
  }

  function Pick(supplied: Option<string>, current: string): string
  {
    if supplied.Some? then supplied.value else current
  }

  /** `{ ...u, ...p }`: every supplied field overrides, every other field is kept. */
  function Merge(u: User, p: PartialUser): (r: User)
    ensures forall k :: Supplied(p, k).Some? ==> Get(r, k) == Supplied(p, k).value
    ensures forall k :: Supplied(p, k).None? ==> Get(r, k) == Get(u, k)
  {
    User(
      Pick(p.id, u.id), Pick(p.fullName, u.fullName), Pick(p.userName, u.userName),
      Pick(p.email, u.email), Pick(p.phoneNumber, u.phoneNumber),
      Pick(p.dateOfBirth, u.dateOfBirth), Pick(p.gender, u.gender),
      Pick(p.address, u.address), Pick(p.avatar, u.avatar))
  }

  /** One field of a spread of two partials: the later one's when it supplies it. */
  function Override(later: Option<string>, earlier: Option<string>): Option<string>
  {
    if later.Some? then later else earlier
  }

  /** The partial that `{ ...p, ...q }` would be: `q`'s fields win. */
  function Combine(p: PartialUser, q: PartialUser): (r: PartialUser)
    ensures forall k :: Supplied(r, k) == if Supplied(q, k).Some? then Supplied(q, k) else Supplied(p, k)
  {
    PartialUser(
      Override(q.id, p.id), Override(q.fullName, p.fullName), Override(q.userName, p.userName),
      Override(q.email, p.email), Override(q.phoneNumber, p.phoneNumber),
      Override(q.dateOfBirth, p.dateOfBirth), Override(q.gender, p.gender),
      Override(q.address, p.address), Override(q.avatar, p.avatar))
  }

  /** Two profiles agreeing on every field are the same profile. */
  lemma UserExt(a: User, b: User)
    requires forall k :: Get(a, k) == Get(b, k)
    ensures a == b
  {
    assert Get(a, Id) == Get(b, Id) && Get(a, FullName) == Get(b, FullName);
    assert Get(a, UserName) == Get(b, UserName) && Get(a, Email) == Get(b, Email);
    assert Get(a, PhoneNumber) == Get(b, PhoneNumber) && Get(a, DateOfBirth) == Get(b, DateOfBirth);
    assert Get(a, Gender) == Get(b, Gender) && Get(a, Address) == Get(b, Address);
    assert Get(a, Avatar) == Get(b, Avatar);
  }

  /**
   * `updateUserProfile(data)`: the fixed profile with every supplied field
   * replaced and every other field as fetched; with nothing supplied it is the
   * fetched profile itself.
   */
  function UpdateUserProfile(data: PartialUser): (r: User)
    ensures forall k :: Supplied(data, k).Some? ==> Get(r, k) == Supplied(data, k).value
    ensures forall k :: Supplied(data, k).None? ==> Get(r, k) == Get(FetchUserProfile(), k)
    ensures data == NoChanges ==> r == FetchUserProfile()
  {
    var r := Merge(FetchUserProfile(), data);
    assert data == NoChanges ==> r == FetchUserProfile() by {
      if data == NoChanges {
        UserExt(r, FetchUserProfile());
      }
    }
    r
  }

  /** Merging the same fields twice changes nothing more. */
  lemma MergeIdempotent(u: User, p: PartialUser)
    ensures Merge(Merge(u, p), p) == Merge(u, p)
  {
  }

  /** Two merges in a row are one merge of the combined fields, the later ones winning. */
  lemma MergeTwice(u: User, p: PartialUser, q: PartialUser)
    ensures Merge(Merge(u, p), q) == Merge(u, Combine(p, q))
  {
  }

  /** A field is left as it was exactly when it was not supplied or was supplied unchanged. */
  lemma MergeKeepsUnsupplied(u: User, p: PartialUser)
    ensures forall k :: Get(Merge(u, p), k) == Get(u, k) <==> Supplied(p, k).None? || Supplied(p, k).value == Get(u, k)
    ensures p == NoChanges ==> Merge(u, p) == u
  {
  }

  // ---------------------------------------------------------------------
  // Password change

  datatype PasswordChange = PasswordChange(currentPassword: string, newPassword: string, confirmPassword: string)

  datatype ChangeOutcome = ChangeOutcome(success: bool)

  /** Throws "Passwords do not match" unless the confirmation equals the new password. */
  function ChangePassword(data: PasswordChange): (r: Result<ChangeOutcome>)
    ensures r.Err? <==> data.newPassword != data.confirmPassword
    ensures r.Err? ==> r.message == "Passwords do not match"
    ensures r.Ok? ==> r.value.success
  {
    if data.newPassword != data.confirmPassword then Err("Passwords do not match")
    else Ok(ChangeOutcome(true))
  }

  // ---------------------------------------------------------------------
  // Generated lists

  datatype BookingStatus = Completed | Pending | Cancelled

  datatype BookingRecord = BookingRecord(
    id: string, serviceName: string, userName: string, userAvatar: string,
    price: int, coachName: string, startTime: string, endTime: string,
    date: string, status: BookingStatus)

  datatype WalletRecord = WalletRecord(id: string, serviceName: string, clientName: string, revenue: int)

  const BookingCount: nat := 12
  const WalletCount: nat := 12

  function BookingAt(i: nat): BookingRecord
  {
    BookingRecord(
      "booking-" + NatToString(i + 1), "Clarity Health Audit", "John Smith",
      "/placeholder.svg?height=40&width=40", 150, "Den Jamison",
      "10:00am", "10:00am", "08/21/2025", if i < 3 then Completed else Pending)
  }

  function FetchBookingHistory(): (r: seq<BookingRecord>)
    ensures |r| == BookingCount
    ensures forall i :: 0 <= i < |r| ==> r[i] == BookingAt(i)
  {
    seq(BookingCount, i requires 0 <= i => BookingAt(i))
  }

  function WalletAt(i: nat): WalletRecord
  {
    WalletRecord("wallet-" + NatToString(i + 1), "Clarity Health Audit", "Wilamson", 620)
  }

  function FetchWalletRecords(): (r: seq<WalletRecord>)
    ensures |r| == WalletCount
    ensures forall i :: 0 <= i < |r| ==> r[i] == WalletAt(i)
  {
    seq(WalletCount, i requires 0 <= i => WalletAt(i))
  }

  /** Strings that start with the same text are equal exactly when their remainders are. */
  lemma SamePrefixEqual(p: string, a: string, b: string)
    requires p + a == p + b
    ensures a == b
  {
    assert a == (p + a)[|p|..];
    assert b == (p + b)[|p|..];
  }

  /**
   * The booking list: twelve records with the distinct ids "booking-1" to
   * "booking-12"; the first three are completed and the others pending.
   */
  lemma BookingHistoryShape()
    ensures var r := FetchBookingHistory();
      && (forall i, j :: 0 <= i < j < |r| ==> r[i].id != r[j].id)
      && (forall i :: 0 <= i < |r| ==> r[i].id == "booking-" + NatToString(i + 1))
      && r[0].id == "booking-1" && r[|r| - 1].id == "booking-12"
      && (forall i :: 0 <= i < |r| ==> (r[i].status == Completed <==> i < 3))
      && (forall i :: 0 <= i < |r| ==> r[i].status != Cancelled)
  {
    var r := FetchBookingHistory();
    forall i, j | 0 <= i < j < |r| ensures r[i].id != r[j].id {
      if r[i].id == r[j].id {
        SamePrefixEqual("booking-", NatToString(i + 1), NatToString(j + 1));
      }
    }
  }

  /** The wallet list: twelve records with the distinct ids "wallet-1" to "wallet-12". */
  lemma WalletRecordIds()
    ensures var r := FetchWalletRecords();
      && (forall i, j :: 0 <= i < j < |r| ==> r[i].id != r[j].id)
      && (forall i :: 0 <= i < |r| ==> r[i].id == "wallet-" + NatToString(i + 1))
      && r[0].id == "wallet-1" && r[|r| - 1].id == "wallet-12"
  {
    var r := FetchWalletRecords();
    forall i, j | 0 <= i < j < |r| ensures r[i].id != r[j].id {
      if r[i].id == r[j].id {
        SamePrefixEqual("wallet-", NatToString(i + 1), NatToString(j + 1));
      }
    }
  }

  /** Every wallet record is worth 620. */
  lemma WalletRecordsRevenue()
    ensures forall i :: 0 <= i < |FetchWalletRecords()| ==> FetchWalletRecords()[i].revenue == 620
  {
  }
}
