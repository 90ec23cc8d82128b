/**
 * The profile form's rules: six text fields, each with a minimum length.
 */
module ProfileSchema {
  import opened Common
  import MockApi

  datatype ProfileField = FullName | UserName | PhoneNumber | DateOfBirth | Gender | Address

  datatype ProfileForm = ProfileForm(
    fullName: string, userName: string, phoneNumber: string,
    dateOfBirth: string, gender: string, address: string)

  /** The least length each field accepts. */
  function MinLength(f: ProfileField): nat
  {
    match f
    case FullName => 2
    case UserName => 3
    case PhoneNumber => 10
    case DateOfBirth => 1
    case Gender => 1
    case Address => 5
  }

  function Value(p: ProfileForm, f: ProfileField): string
  {
    match f
    case FullName => p.fullName
    case UserName => p.userName
    case PhoneNumber => p.phoneNumber
    case DateOfBirth => p.dateOfBirth
    case Gender => p.gender
    case Address => p.address
  }

  /** The fields in the order the schema declares and checks them. */
  const FieldOrder := [FullName, UserName, PhoneNumber, DateOfBirth, Gender, Address]

  /** No field occurs twice in `fs`. */
  predicate NoRepeats(fs: seq<ProfileField>)
  {
    forall i, j :: 0 <= i < j < |fs| ==> fs[i] != fs[j]
  }

  /** Without repeats, the later fields do not repeat and none of them is the first. */
  lemma NoRepeatsTail(fs: seq<ProfileField>)
    requires fs != [] && NoRepeats(fs)
    ensures NoRepeats(fs[1..]) && fs[0] !in fs[1..]
  {
    forall i, j | 0 <= i < j < |fs[1..]| ensures fs[1..][i] != fs[1..][j] {
      assert fs[1..][i] == fs[i + 1] && fs[1..][j] == fs[j + 1];
    }
  }

  /** The issues of the fields `fs`, in that order: one for each field that is too short. */
  function IssuesFor(p: ProfileForm, fs: seq<ProfileField>): (r: seq<Issue<ProfileField>>)
    ensures forall x :: x in r ==> x.path in fs && |Value(p, x.path)| < MinLength(x.path)
                                   && x.message == ProfileMessage(x.path)
    ensures forall f :: f in fs && |Value(p, f)| < MinLength(f) ==> Issue(f, ProfileMessage(f)) in r
    ensures |r| <= |fs|
    ensures NoRepeats(fs) ==> forall i, j :: 0 <= i < j < |r| ==> r[i].path != r[j].path
  {
    if fs == [] then []
    else
      var head := Check(|Value(p, fs[0])| >= MinLength(fs[0]), fs[0], ProfileMessage(fs[0]));
      var rest := IssuesFor(p, fs[1..]);
      assert NoRepeats(fs) ==> NoRepeats(fs[1..]) && fs[0] !in fs[1..] by {
        if NoRepeats(fs) {
          NoRepeatsTail(fs);
        }
      }
      head + rest
  }

  /** Every field of the form is among those the schema checks. */
  lemma EveryFieldChecked()
    ensures forall f :: f in FieldOrder
  {
    forall f ensures f in FieldOrder {
      match f
      case FullName => assert FieldOrder[0] == f;
      case UserName => assert FieldOrder[1] == f;
      case PhoneNumber => assert FieldOrder[2] == f;
      case DateOfBirth => assert FieldOrder[3] == f;
      case Gender => assert FieldOrder[4] == f;
      case Address => assert FieldOrder[5] == f;
    }
  }

  /** Every field long enough, spelled out field by field. */
  lemma AllLongEnough(p: ProfileForm)
    ensures (forall f :: |Value(p, f)| >= MinLength(f)) <==>
      && |p.fullName| >= 2 && |p.userName| >= 3 && |p.phoneNumber| >= 10
      && p.dateOfBirth != "" && p.gender != "" && |p.address| >= 5
  {
    if && |p.fullName| >= 2 && |p.userName| >= 3 && |p.phoneNumber| >= 10
       && p.dateOfBirth != "" && p.gender != "" && |p.address| >= 5 {
      forall f ensures |Value(p, f)| >= MinLength(f) {
        match f
        case FullName =>
        case UserName =>
        case PhoneNumber =>
        case DateOfBirth =>
        case Gender =>
        case Address =>
      }
    } else {
      var bad :| bad in FieldOrder && |Value(p, bad)| < MinLength(bad);
    }
  }

  /** The profile schema: accepted exactly when every field meets its minimum length. */
  function ProfileIssues(p: ProfileForm): (r: seq<Issue<ProfileField>>)
    ensures r == [] <==>
      && |p.fullName| >= 2 && |p.userName| >= 3 && |p.phoneNumber| >= 10
      && p.dateOfBirth != "" && p.gender != "" && |p.address| >= 5
    ensures forall f :: Issue(f, ProfileMessage(f)) in r <==> |Value(p, f)| < MinLength(f)
    ensures forall x :: x in r ==> x == Issue(x.path, ProfileMessage(x.path))
  {
    EveryFieldChecked();
    AllLongEnough(p);
    var r := IssuesFor(p, FieldOrder);
    assert r == [] <==> forall f :: |Value(p, f)| >= MinLength(f) by {
      if r != [] {
        assert r[0] in r;
      }
    }
    r
  }

  function ProfileMessage(f: ProfileField): string
  {
    match f
    case FullName => "Full name must be at least 2 characters"
    case UserName => "Username must be at least 3 characters"
    case PhoneNumber => "Phone number must be at least 10 characters"
    case DateOfBirth => "Date of birth is required"
    case Gender => "Gender is required"
    case Address => "Address must be at least 5 characters"
  }

  /** The form as the edit page fills it from a fetched profile. */
  function FromUser(u: MockApi.User): ProfileForm
  {
    ProfileForm(u.fullName, u.userName, u.phoneNumber, u.dateOfBirth, u.gender, u.address)
  }

  /** The profile the mock backend returns passes the profile rules unchanged. */
  lemma FetchedProfileIsValid()
    ensures ProfileIssues(FromUser(MockApi.FetchUserProfile())) == []
  {
  }
}
