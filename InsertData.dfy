/** The synthetic-data script: it fills the id pools and writes the INSERT
    statements of the clinic database, one section after another (patients,
    doctors, services, employees, appointments, billing, feedback, referrals).
    Every call into `random` and Faker is a value supplied by the caller:
    `draw(site, i)` is the number drawn at a call site in iteration `i`, and
    `fake(section, kind, i)` the text Faker produced there. */
module InsertData {
  import opened SqlText
  import V = Vocabulary

  // Number of records to generate.
  const NumPatients: nat := 1000
  const NumDoctors: nat := 50
  const NumServices: nat := 30
  const NumEmployees: nat := 10
  const NumAppointments: nat := 5000
  const NumFeedbacks: nat := 500
  const NumReferrals: nat := 200

  const MinAmount: int := 10000
  const MaxAmount: int := 50000

  /** The sections of the script, in the order they are written. */
  datatype Section = Patients | Doctors | Services | Employees | Appointments | Billing | Feedback | Referrals

  function Rank(s: Section): nat
  {
    match s
    case Patients => 0 case Doctors => 1 case Services => 2 case Employees => 3
    case Appointments => 4 case Billing => 5 case Feedback => 6 case Referrals => 7
  }

  /** The call sites of `random`. */
  datatype Site =
    | GenderSite | SpecializationSite | CategorySite | CostSite | RoleSite | DepartmentSite
    | PatientSite | DoctorSite | ServiceSite | StatusSite
    | BillingStatusSite | AmountSite | MethodSite
    | FeedbackPatientSite | FeedbackAppointmentSite | RatingSite | ReferralPatientSite

  /** The Faker calls; dates are already formatted. */
  datatype Fake =
    | FirstName | LastName | BirthDate | PhoneNumber | Email | RegistrationDate | EmploymentDate
    | Word | DateTime | PayDate | Sentence | FeedbackDate | ReferralDate

  /** `random.choice(options)` or `random.choices(options, weights)[0]`: some element of a
      non-empty list, which one being the caller's draw (the weights are not modelled). */
  function Choose<T>(options: seq<T>, n: nat): (x: T)
    requires |options| > 0
    ensures x in options
  {
    options[n % |options|]
  }

  /** `random.randint(lo, hi)`: a number in [lo, hi], both ends included. */
  function RandInt(lo: int, hi: int, n: nat): (x: int)
    requires lo <= hi
    ensures lo <= x <= hi
  {
    lo + n % (hi - lo + 1)
  }

  /** One `file.write`: the preamble, a section comment, or one INSERT statement. */
  datatype Write =
    | Preamble
    | Heading(section: Section)
    | PatientRow(id: nat, firstName: string, lastName: string, dateOfBirth: string, gender: V.Gender,
                 contactNumber: string, email: string, registrationDate: string)
    | DoctorRow(id: nat, firstName: string, lastName: string, specialization: V.Specialization, employmentDate: string)
    | ServiceRow(id: nat, serviceName: string, serviceCategory: V.ServiceCategory, cost: nat)
    | EmployeeRow(id: nat, firstName: string, lastName: string, role: V.Role, employmentDate: string,
                  department: V.Department)
    | AppointmentRow(id: nat, patientId: nat, doctorId: nat, serviceId: nat, dateTime: string, status: V.Status)
    | BillingRow(id: nat, appointmentId: nat, totalAmount: nat, amountPaid: nat, paymentDate: string,
                 paymentMethod: V.PaymentMethod)
    | FeedbackRow(id: nat, patientId: nat, appointmentId: nat, rating: nat, comments: string, feedbackDate: string)
    | ReferralRow(id: nat, patientId: nat, referringPhysician: string, referralDate: string, notes: string)

  predicate IsRow(w: Write) { !w.Preamble? && !w.Heading? }

  /** The section a write belongs to; the preamble opens the patients section. */
  function SectionOf(w: Write): Section
  {
    match w
    case Preamble => Patients
    case Heading(s) => s
    case PatientRow(_, _, _, _, _, _, _, _) => Patients
    case DoctorRow(_, _, _, _, _) => Doctors
    case ServiceRow(_, _, _, _) => Services
    case EmployeeRow(_, _, _, _, _, _) => Employees
    case AppointmentRow(_, _, _, _, _, _) => Appointments
    case BillingRow(_, _, _, _, _, _) => Billing
    case FeedbackRow(_, _, _, _, _, _) => Feedback
    case ReferralRow(_, _, _, _, _) => Referrals
  }

  /** The row `w` inserts the key `id` into the table of section `s`. */
  predicate Defines(w: Write, s: Section, id: nat)
  {
    IsRow(w) && SectionOf(w) == s && w.id == id
  }

  /** The foreign keys a row carries, with the table each refers to. */
  function References(w: Write): seq<(Section, nat)>
  {
    match w
    case AppointmentRow(_, p, d, s, _, _) => [(Patients, p), (Doctors, d), (Services, s)]
    case BillingRow(_, a, _, _, _, _) => [(Appointments, a)]
    case FeedbackRow(_, p, a, _, _, _) => [(Patients, p), (Appointments, a)]
    case ReferralRow(_, p, _, _, _) => [(Patients, p)]
    case _ => []
  }

  // ---------------------------------------------------------------------
  // The text of each write

  /** The table each section inserts into; the employees' table is singular. */
  function Table(s: Section): string
  {
    match s
    case Patients => "Patients" case Doctors => "Doctors" case Services => "Services"
    case Employees => "Employee" case Appointments => "Appointments" case Billing => "Billing"
    case Feedback => "Feedback" case Referrals => "Referrals"
  }

  /** The column list of each table, in the order the values are written. */
  function Columns(s: Section): string
  {
    match s
    case Patients =>
      "PatientID, FirstName, LastName, DateOfBirth, Gender, ContactNumber, Email, RegistrationDate"
    case Doctors => "DoctorID, FirstName, LastName, Specialization, EmploymentDate"
    case Services => "ServiceID, ServiceName, ServiceCategory, Cost"
    case Employees => "EmployeeID, FirstName, LastName, Role, EmploymentDate, Department"
    case Appointments => "AppointmentID, PatientID, DoctorID, ServiceID, AppointmentDateTime, Status"
    case Billing => "BillingID, AppointmentID, TotalAmount, AmountPaid, PaymentDate, PaymentMethod"
    case Feedback => "FeedbackID, PatientID, AppointmentID, Rating, Comments, FeedbackDate"
    case Referrals => "ReferralID, PatientID, ReferringPhysician, ReferralDate, Notes"
  }

  /** A character-string literal: the text between single quotes, written as it is. */
  function Literal(body: string): string
  {
    [Quote] + body + [Quote]
  }

  /** The VALUES list of a row: keys, amounts and ratings in decimal, everything else quoted. */
  function Values(w: Write): string
    requires IsRow(w)
  {
    match w
    case PatientRow(id, first, last, born, gender, phone, email, registered) =>
      NatString(id) + ", " + Literal(first) + ", " + Literal(last) + ", " + Literal(born) + ", "
      + Literal(gender.Label()) + ", " + Literal(phone) + ", " + Literal(email) + ", " + Literal(registered)
    case DoctorRow(id, first, last, specialization, employed) =>
      NatString(id) + ", " + Literal(first) + ", " + Literal(last) + ", " + Literal(specialization.Label()) + ", "
      + Literal(employed)
    case ServiceRow(id, name, category, cost) =>
      NatString(id) + ", " + Literal(name) + ", " + Literal(category.Label()) + ", " + NatString(cost)
    case EmployeeRow(id, first, last, role, employed, department) =>
      NatString(id) + ", " + Literal(first) + ", " + Literal(last) + ", " + Literal(role.Label()) + ", "
      + Literal(employed) + ", " + Literal(department.Label())
    case AppointmentRow(id, patient, doctor, service, at, status) =>
      NatString(id) + ", " + NatString(patient) + ", " + NatString(doctor) + ", " + NatString(service) + ", "
      + Literal(at) + ", " + Literal(status.Label())
    case BillingRow(id, appointment, total, paid, date, payment) =>
      NatString(id) + ", " + NatString(appointment) + ", " + NatString(total) + ", " + NatString(paid) + ", "
      + Literal(date) + ", " + Literal(payment.Label())
    case FeedbackRow(id, patient, appointment, rating, comments, date) =>
      NatString(id) + ", " + NatString(patient) + ", " + NatString(appointment) + ", " + NatString(rating) + ", "
      + Literal(comments) + ", " + Literal(date)
    case ReferralRow(id, patient, physician, date, notes) =>
      NatString(id) + ", " + NatString(patient) + ", " + Literal(physician) + ", " + Literal(date) + ", "
      + Literal(notes)
  }

  const Use: string := "USE HealthcareAppDB;\nGO\n"

  /** One INSERT statement into the table of section `s`, on a line of its own. */
  function Statement(s: Section, values: string): (t: string)
    ensures "INSERT INTO " + Table(s) + " (" <= t
    ensures |t| > 0 && t[|t| - 1] == '\n'
  {
    var head := "INSERT INTO " + Table(s) + " (";
    var t := head + (Columns(s) + ") VALUES (" + values + ");\n");
    assert t[..|head|] == head;
    t
  }

  /** The name a section's comment gives it: its table's name, but the employees in the plural. */
  function SectionName(s: Section): string
  {
    if s == Employees then "Employees" else Table(s)
  }

  /** The comment that opens a section: an empty line, then `-- ` and the section's name on a line of its own. */
  function Comment(s: Section): (t: string)
    ensures |t| == |SectionName(s)| + 5
    ensures t[..4] == "\n-- " && t[4..|t| - 1] == SectionName(s) && t[|t| - 1] == '\n'
  {
    var t := "\n-- " + SectionName(s) + "\n";
    assert t[4..|t| - 1] == SectionName(s);
    t
  }

  /** Different sections open with different comments. */
  lemma CommentsDiffer(s: Section, u: Section)
    requires s != u
    ensures Comment(s) != Comment(u)
  {
  }

  /** What one `file.write` call writes. */
  function Text(w: Write): (t: string)
    ensures w.Preamble? ==> Use <= t
    ensures IsRow(w) ==> "INSERT INTO " + Table(SectionOf(w)) + " (" <= t
    ensures |t| > 0 && t[|t| - 1] == '\n'
  {
    if w.Preamble? then
      var t := Use + "-- Patients\n";
      assert t[..|Use|] == Use;
      t
    else if w.Heading? then Comment(w.section)
    else Statement(SectionOf(w), Values(w))
  }

  /** The texts of the writes, one after another. */
  function Join<T>(xs: seq<T>, text: T -> string): string
  {
    if xs == [] then [] else text(xs[0]) + Join(xs[1..], text)
  }

  /** Joining two runs one after the other gives the two texts one after the other. */
  lemma {:induction false} JoinAppend<T>(a: seq<T>, b: seq<T>, text: T -> string)
    ensures Join(a + b, text) == Join(a, text) + Join(b, text)
  {
    if a == [] {
      assert a + b == b;
    } else {
      var ab := a + b;
      assert ab[0] == a[0] && ab[1..] == a[1..] + b;
      calc {
        Join(ab, text);
        text(a[0]) + Join(a[1..] + b, text);
        { JoinAppend(a[1..], b, text); }
        text(a[0]) + (Join(a[1..], text) + Join(b, text));
      }
    }
  }

  lemma JoinOne<T>(x: T, text: T -> string)
    ensures Join([x], text) == text(x)
  {
    assert [x][1..] == [];
  }

  /** The file: what the writes write, one after another. */
  function Script(out: seq<Write>): string
  {
    Join(out, Text)
  }

  /** Writing two runs of writes one after the other gives the two files one after the other. */
  lemma ScriptAppend(a: seq<Write>, b: seq<Write>)
    ensures Script(a + b) == Script(a) + Script(b)
  {
    JoinAppend(a, b, Text);
  }

  /** Each `file.write` appends its text to what the file holds. */
  lemma ScriptWrite(a: seq<Write>, w: Write)
    ensures Script(a + [w]) == Script(a) + Text(w)
  {
    JoinAppend(a, [w], Text);
    JoinOne(w, Text);
  }

  /** A script whose first write is the preamble starts by selecting the clinic database. */
  lemma ScriptStartsWithUse(out: seq<Write>)
    requires |out| > 0 && out[0] == Preamble
    ensures Use <= Script(out)
  {
    var first := Text(out[0]);
    assert Script(out) == first + Join(out[1..], Text);
    assert Script(out)[..|Use|] == first[..|Use|];
  }

  /** Every foreign key refers to a row written earlier in the script. */
  ghost predicate ReferencesEarlier(out: seq<Write>)
  {
    forall j, r :: 0 <= j < |out| && r in References(out[j]) ==>
      exists i :: 0 <= i < j && Defines(out[i], r.0, r.1)
  }

  /** Sections never interleave and never go back. */
  predicate Ordered(out: seq<Write>)
  {
    forall i, j :: 0 <= i < j < |out| ==> Rank(SectionOf(out[i])) <= Rank(SectionOf(out[j]))
  }

  /** Positions `at` .. `at + count - 1` hold rows of section `s` with keys `first`, `first + 1`, ... */
  predicate Emitted(out: seq<Write>, at: nat, count: nat, s: Section, first: nat)
  {
    at + count <= |out| && forall i :: at <= i < at + count ==> Defines(out[i], s, first + i - at)
  }

  /** Positions `at` .. `at + |keys| - 1` hold billing rows with the keys `keys`, in order. */
  predicate Bills(out: seq<Write>, at: nat, keys: seq<nat>)
  {
    at + |keys| <= |out| && forall i :: at <= i < at + |keys| ==> Defines(out[i], Billing, keys[i - at])
  }

  /** The value ranges of each kind of row, and the well-formedness of the escaped literals
      (the categorical columns are in range by their types). */
  predicate ValidRow(w: Write)
  {
    match w
    case ServiceRow(_, _, _, cost) => MinAmount <= cost <= MaxAmount
    case AppointmentRow(_, p, d, s, _, _) => 1 <= p <= NumPatients && 1 <= d <= NumDoctors && 1 <= s <= NumServices
    case BillingRow(id, a, total, paid, _, _) =>
      1 <= id <= NumAppointments && a == id && paid == total && MinAmount <= total <= MaxAmount
    case FeedbackRow(_, p, a, rating, comments, _) =>
      1 <= p <= NumPatients && 1 <= a <= NumAppointments && 1 <= rating <= 5 && QuotesPaired(comments)
    case ReferralRow(_, p, _, _, notes) => 1 <= p <= NumPatients && QuotesPaired(notes)
    case _ => true
  }

  /** The keys a section's loop appends to its pool: `first`, ..., `first + count - 1`. */
  function IdRange(first: nat, count: nat): (r: seq<nat>)
    ensures |r| == count && forall k :: 0 <= k < count ==> r[k] == first + k
  {
    seq(count, k requires 0 <= k < count => first + k)
  }

  lemma InIdRange(first: nat, count: nat, x: nat)
    ensures x in IdRange(first, count) <==> first <= x < first + count
  {
    if first <= x < first + count {
      assert IdRange(first, count)[x - first] == x;
    }
  }

  /** The billing draw of iteration `i` came out as 'Completed'. */
  predicate Completed(draw: (Site, nat) -> nat, i: nat)
  {
    Choose(V.BillingStatuses, draw(BillingStatusSite, i)) == V.Completed
  }

  /** The iterations 1..n whose billing draw was 'Completed', in the order the loop meets them. */
  function CompletedIds(draw: (Site, nat) -> nat, n: nat): (r: seq<nat>)
    ensures |r| <= n
  {
    if n == 0 then []
    else
      var init := CompletedIds(draw, n - 1);
      if Completed(draw, n) then init + [n] else init
  }

  /** A bill is written for iteration `m` exactly when `m` is in range and its draw was 'Completed'. */
  lemma {:induction false} CompletedIdsMembers(draw: (Site, nat) -> nat, n: nat)
    ensures forall m :: m in CompletedIds(draw, n) <==> 1 <= m <= n && Completed(draw, m)
  {
    if n > 0 {
      CompletedIdsMembers(draw, n - 1);
    }
  }

  predicate Increasing(r: seq<nat>)
  {
    forall i, j :: 0 <= i < j < |r| ==> r[i] < r[j]
  }

  /** The bills come in increasing key order, so no appointment is billed twice. */
  lemma {:induction false} CompletedIdsIncreasing(draw: (Site, nat) -> nat, n: nat)
    ensures Increasing(CompletedIds(draw, n))
  {
    if n > 0 {
      var init := CompletedIds(draw, n - 1);
      CompletedIdsIncreasing(draw, n - 1);
      if Completed(draw, n) {
        CompletedIdsMembers(draw, n - 1);
        var r := init + [n];
        forall i, j | 0 <= i < j < |r| ensures r[i] < r[j] {
          if j == |init| {
            assert init[i] in init;
          }
        }
      }
    }
  }

  // ---------------------------------------------------------------------
  // The layout of the finished script

  /** The number of rows section `s` writes, `billed` being the number of bills. */
  function Count(s: Section, billed: nat): nat
  {
    match s
    case Patients => NumPatients
    case Doctors => NumDoctors
    case Services => NumServices
    case Employees => NumEmployees
    case Appointments => NumAppointments
    case Billing => billed
    case Feedback => NumFeedbacks
    case Referrals => NumReferrals
  }

  /** The key of a section's first row: employees are numbered on from the doctors. */
  function FirstKey(s: Section): nat
  {
    if s == Employees then NumDoctors + 1 else 1
  }

  /** The position of the first row of section `s`, right after the write that opens it. */
  function At(s: Section, billed: nat): (at: nat)
    ensures at >= 1
  {
    var doctors := NumPatients + 2;
    var services := doctors + NumDoctors + 1;
    var employees := services + NumServices + 1;
    var appointments := employees + NumEmployees + 1;
    var billing := appointments + NumAppointments + 1;
    var feedback := billing + billed + 1;
    match s
    case Patients => 1
    case Doctors => doctors
    case Services => services
    case Employees => employees
    case Appointments => appointments
    case Billing => billing
    case Feedback => feedback
    case Referrals => feedback + NumFeedbacks + 1
  }

  /** Each section ends before the heading of any later one. */
  lemma Before(s: Section, t: Section, billed: nat)
    requires Rank(s) < Rank(t)
    ensures At(s, billed) + Count(s, billed) < At(t, billed)
  {
  }

  /** The rows of section `s` start at `at`: the billing keys are `billed`, any other
      section's keys are consecutive from its first key. */
  predicate Rows(out: seq<Write>, at: nat, s: Section, billed: seq<nat>)
  {
    if s == Billing then Bills(out, at, billed) else Emitted(out, at, Count(s, |billed|), s, FirstKey(s))
  }

  /** Section `s` sits where the script puts it: opened by the preamble (patients) or its
      heading, and followed by its rows. */
  predicate Placed(out: seq<Write>, s: Section, billed: seq<nat>)
  {
    var at := At(s, |billed|);
    at <= |out| && out[at - 1] == (if s == Patients then Preamble else Heading(s)) && Rows(out, at, s, billed)
  }

  /** Every section up to `upTo` is in place, the billing section holding the bills `billed`. */
  predicate Laid(out: seq<Write>, upTo: Section, billed: seq<nat>)
  {
    forall s :: Rank(s) <= Rank(upTo) ==> Placed(out, s, billed)
  }

  /** The number of writes once section `s` is finished. */
  function End(s: Section, billed: seq<nat>): nat
  {
    At(s, |billed|) + Count(s, |billed|)
  }

  // ---------------------------------------------------------------------
  // Invariants of the growing script

  /** `out` is `start` followed by further writes: what was written stays as it was. */
  predicate Extends(out: seq<Write>, start: seq<Write>)
  {
    if start == [] then true else out != [] && out[0] == start[0] && Extends(out[1..], start[1..])
  }

  /** Extending is having the earlier script as a prefix. */
  lemma {:induction false} ExtendsPrefix(out: seq<Write>, start: seq<Write>)
    ensures Extends(out, start) <==> |start| <= |out| && out[..|start|] == start
  {
    if start != [] && out != [] {
      ExtendsPrefix(out[1..], start[1..]);
      if |start| <= |out| && out[..|start|] == start {
        assert out[1..][..|start| - 1] == out[..|start|][1..];
      }
      if Extends(out, start) {
        assert out[..|start|] == [out[0]] + out[1..][..|start| - 1];
        assert start == [start[0]] + start[1..];
      }
    }
  }

  /** Every row written so far is in range. */
  predicate ValidRows(out: seq<Write>)
  {
    forall w :: w in out ==> ValidRow(w)
  }

  /** Later writes leave a placed section in place. */
  lemma PlacedExtends(a: seq<Write>, b: seq<Write>, s: Section, billed: seq<nat>)
    requires Placed(a, s, billed) && |a| <= |b| && b[..|a|] == a
    ensures Placed(b, s, billed)
  {
    assert forall k :: 0 <= k < |a| ==> b[k] == b[..|a|][k];
  }

  lemma LaidExtends(a: seq<Write>, b: seq<Write>, upTo: Section, billed: seq<nat>)
    requires Laid(a, upTo, billed) && |a| <= |b| && b[..|a|] == a
    ensures Laid(b, upTo, billed)
  {
    forall s | Rank(s) <= Rank(upTo) ensures Placed(b, s, billed) {
      PlacedExtends(a, b, s, billed);
    }
  }

  /** The sections before billing sit where they sit whatever the bills turn out to be. */
  lemma Rebill(out: seq<Write>, upTo: Section, before: seq<nat>, after: seq<nat>)
    requires Laid(out, upTo, before) && Rank(upTo) < Rank(Billing)
    ensures Laid(out, upTo, after)
  {
    forall s | Rank(s) <= Rank(upTo) ensures Placed(out, s, after) {
      assert Placed(out, s, before);
    }
  }

  /** The loop of section `s` has written `count` rows after `start`, keyed
      `first`, `first + 1`, ..., and the script is still sound. */
  ghost predicate Progress(out: seq<Write>, start: seq<Write>, s: Section, first: nat, count: nat)
  {
    |out| == |start| + count && out[..|start|] == start && Emitted(out, |start|, count, s, first) && ValidRows(out)
  }

  /** One iteration of a section loop other than billing: the next row, whose keys
      were all written before the loop began. */
  lemma Step(out: seq<Write>, start: seq<Write>, s: Section, first: nat, count: nat, w: Write)
    requires Progress(out, start, s, first, count)
    requires Defines(w, s, first + count) && ValidRow(w)
    ensures Progress(out + [w], start, s, first, count + 1)
  {
    assert (out + [w])[..|start|] == out[..|start|];
  }

  /** A section opens with its heading. */
  lemma Open(start: seq<Write>, s: Section)
    requires ValidRows(start)
    ensures Progress(start + [Heading(s)], start + [Heading(s)], s, FirstKey(s), 0)
  {
  }

  lemma RankInjective(s: Section, t: Section)
    ensures Rank(s) == Rank(t) ==> s == t
  {
  }

  /** A finished section, appended after the sections before it, extends the layout. */
  lemma Close(start: seq<Write>, out: seq<Write>, p: Section, s: Section, b: seq<nat>)
    requires Laid(start, p, b) && Rank(s) == Rank(p) + 1 && |start| + 1 == At(s, |b|)
    requires |start| < |out| && out[..|start| + 1] == start + [Heading(s)]
    requires Rows(out, |start| + 1, s, b)
    ensures Laid(out, s, b)
  {
    assert out[..|start|] == out[..|start| + 1][..|start|];
    LaidExtends(start, out, p, b);
    assert out[|start|] == out[..|start| + 1][|start|];
    assert s != Patients;
    assert Placed(out, s, b);
    forall t | Rank(t) <= Rank(s) ensures Placed(out, t, b) {
      RankInjective(s, t);
    }
  }

  /** The heading of a section comes right after the last row of the section before it. */
  lemma Adjacent(p: Section, s: Section, billed: nat)
    requires Rank(s) == Rank(p) + 1
    ensures At(p, billed) + Count(p, billed) + 1 == At(s, billed)
  {
  }

  /** A section loop other than billing that has written all its rows after its heading
      extends the layout by that section. */
  lemma Finish(start: seq<Write>, out: seq<Write>, p: Section, s: Section, billed: seq<nat>, count: nat)
    requires Laid(start, p, billed) && |start| == End(p, billed) && Rank(s) == Rank(p) + 1 && s != Billing
    requires Progress(out, start + [Heading(s)], s, FirstKey(s), count)
    requires count == Count(s, |billed|)
    ensures Laid(out, s, billed) && |out| == End(s, billed) && ValidRows(out)
    ensures Extends(out, start)
  {
    assert out[..|start|] == out[..|start| + 1][..|start|];
    ExtendsPrefix(out, start);
    Adjacent(p, s, |billed|);
    Close(start, out, p, s, billed);
  }

  /** The patients section, preceded only by the preamble, starts the layout. */
  lemma ClosePatients(out: seq<Write>)
    requires Progress(out, [Preamble], Patients, 1, NumPatients)
    ensures Laid(out, Patients, []) && |out| == End(Patients, []) && ValidRows(out)
  {
    var b: seq<nat> := [];
    assert out[0] == out[..1][0];
    assert Placed(out, Patients, b);
    forall t | Rank(t) <= Rank(Patients) ensures Placed(out, t, b) {
      RankInjective(Patients, t);
    }
  }

  /** The file opens with the preamble, which heads the patients section. */
  lemma Start()
    ensures Progress([Preamble], [Preamble], Patients, 1, 0)
  {
  }

  // ---------------------------------------------------------------------
  // The script, one method per loop

  /** Opens the file and writes the patients; every patient key goes to the pool. */
  method WritePatients(draw: (Site, nat) -> nat, fake: (Section, Fake, nat) -> string)
    returns (out: seq<Write>, patientIds: seq<nat>)
    ensures Laid(out, Patients, []) && |out| == End(Patients, []) && ValidRows(out)
    ensures patientIds == IdRange(1, NumPatients)
  {
    Start();
    out := [Preamble];
    patientIds := [];
    for i := 1 to NumPatients + 1
      invariant Progress(out, [Preamble], Patients, 1, i - 1)
      invariant patientIds == IdRange(1, i - 1)
    {
      var w := PatientRow(i, fake(Patients, FirstName, i), fake(Patients, LastName, i),
                          fake(Patients, BirthDate, i), Choose(V.Genders, draw(GenderSite, i)),
                          fake(Patients, PhoneNumber, i), fake(Patients, Email, i),
                          fake(Patients, RegistrationDate, i));
      Step(out, [Preamble], Patients, 1, i - 1, w);
      out := out + [w];
      patientIds := patientIds + [i];
    }
    ClosePatients(out);
  }

  /** Writes the doctors; each key goes to both the doctor pool and the employee pool. */
  method WriteDoctors(draw: (Site, nat) -> nat, fake: (Section, Fake, nat) -> string, start: seq<Write>)
    returns (out: seq<Write>, doctorIds: seq<nat>, employeeIds: seq<nat>)
    requires Laid(start, Patients, []) && |start| == End(Patients, []) && ValidRows(start)
    ensures Laid(out, Doctors, []) && |out| == End(Doctors, []) && ValidRows(out)
    ensures Extends(out, start)
    ensures doctorIds == IdRange(1, NumDoctors) && employeeIds == doctorIds
  {
    Open(start, Doctors);
    out := start + [Heading(Doctors)];
    doctorIds, employeeIds := [], [];
    for i := 1 to NumDoctors + 1
      invariant Progress(out, start + [Heading(Doctors)], Doctors, 1, i - 1)
      invariant doctorIds == IdRange(1, i - 1) && employeeIds == doctorIds
    {
      var w := DoctorRow(i, "Dr. " + fake(Doctors, FirstName, i), fake(Doctors, LastName, i),
                         Choose(V.Specializations, draw(SpecializationSite, i)), fake(Doctors, EmploymentDate, i));
      Step(out, start + [Heading(Doctors)], Doctors, 1, i - 1, w);
      out := out + [w];
      doctorIds := doctorIds + [i];
      employeeIds := employeeIds + [i];
    }
    Finish(start, out, Patients, Doctors, [], NumDoctors);
  }

  /** Writes the services, each with a cost drawn from [10000, 50000]. */
  method WriteServices(draw: (Site, nat) -> nat, fake: (Section, Fake, nat) -> string, start: seq<Write>)
    returns (out: seq<Write>, serviceIds: seq<nat>)
    requires Laid(start, Doctors, []) && |start| == End(Doctors, []) && ValidRows(start)
    ensures Laid(out, Services, []) && |out| == End(Services, []) && ValidRows(out)
    ensures Extends(out, start)
    ensures serviceIds == IdRange(1, NumServices)
  {
    Open(start, Services);
    out := start + [Heading(Services)];
    serviceIds := [];
    for i := 1 to NumServices + 1
      invariant Progress(out, start + [Heading(Services)], Services, 1, i - 1)
      invariant serviceIds == IdRange(1, i - 1)
    {
      var w := ServiceRow(i, fake(Services, Word, i) + " Service",
                          Choose(V.ServiceCategories, draw(CategorySite, i)),
                          RandInt(MinAmount, MaxAmount, draw(CostSite, i)));
      Step(out, start + [Heading(Services)], Services, 1, i - 1, w);
      out := out + [w];
      serviceIds := serviceIds + [i];
    }
    Finish(start, out, Doctors, Services, [], NumServices);
  }

  /** Writes the non-doctor employees, numbered on from the last doctor. */
  method WriteEmployees(draw: (Site, nat) -> nat, fake: (Section, Fake, nat) -> string, start: seq<Write>,
                        doctorsOnly: seq<nat>)
    returns (out: seq<Write>, employeeIds: seq<nat>)
    requires Laid(start, Services, []) && |start| == End(Services, []) && ValidRows(start)
    ensures Laid(out, Employees, []) && |out| == End(Employees, []) && ValidRows(out)
    ensures Extends(out, start)
    ensures employeeIds == doctorsOnly + IdRange(NumDoctors + 1, NumEmployees)
  {
    Open(start, Employees);
    out := start + [Heading(Employees)];
    employeeIds := doctorsOnly;
    for i := NumDoctors + 1 to NumDoctors + NumEmployees + 1
      invariant Progress(out, start + [Heading(Employees)], Employees, NumDoctors + 1, i - NumDoctors - 1)
      invariant employeeIds == doctorsOnly + IdRange(NumDoctors + 1, i - NumDoctors - 1)
    {
      var w := EmployeeRow(i, fake(Employees, FirstName, i), fake(Employees, LastName, i),
                           Choose(V.Roles, draw(RoleSite, i)), fake(Employees, EmploymentDate, i),
                           Choose(V.Departments, draw(DepartmentSite, i)));
      Step(out, start + [Heading(Employees)], Employees, NumDoctors + 1, i - NumDoctors - 1, w);
      out := out + [w];
      employeeIds := employeeIds + [i];
    }
    Finish(start, out, Services, Employees, [], NumEmployees);
  }

  /** Writes the appointments; patient, doctor and service are drawn from the pools,
      whose rows are all written already. */
  method WriteAppointments(draw: (Site, nat) -> nat, fake: (Section, Fake, nat) -> string, start: seq<Write>,
                           patientIds: seq<nat>, doctorIds: seq<nat>, serviceIds: seq<nat>)
    returns (out: seq<Write>, appointmentIds: seq<nat>)
    requires patientIds == IdRange(1, NumPatients) && doctorIds == IdRange(1, NumDoctors)
    requires serviceIds == IdRange(1, NumServices)
    requires Laid(start, Employees, []) && |start| == End(Employees, []) && ValidRows(start)
    ensures Laid(out, Appointments, []) && |out| == End(Appointments, []) && ValidRows(out)
    ensures Extends(out, start)
    ensures appointmentIds == IdRange(1, NumAppointments)
  {
    Open(start, Appointments);
    var prefix := start + [Heading(Appointments)];
    out := prefix;
    appointmentIds := [];
    for i := 1 to NumAppointments + 1
      invariant Progress(out, prefix, Appointments, 1, i - 1)
      invariant appointmentIds == IdRange(1, i - 1)
    {
      var patientId := Choose(patientIds, draw(PatientSite, i));
      var doctorId := Choose(doctorIds, draw(DoctorSite, i));
      var serviceId := Choose(serviceIds, draw(ServiceSite, i));
      InIdRange(1, NumPatients, patientId);
      InIdRange(1, NumDoctors, doctorId);
      InIdRange(1, NumServices, serviceId);
      var w := AppointmentRow(i, patientId, doctorId, serviceId, fake(Appointments, DateTime, i),
                              Choose(V.AppointmentStatuses, draw(StatusSite, i)));
      Step(out, prefix, Appointments, 1, i - 1, w);
      out := out + [w];
      appointmentIds := appointmentIds + [i];
    }
    Finish(start, out, Employees, Appointments, [], NumAppointments);
  }

  /** The billing loop has looked at iterations 1..n after `start`: one row per
      'Completed' draw so far, and the script is still sound. */
  ghost predicate Billed(out: seq<Write>, start: seq<Write>, draw: (Site, nat) -> nat, n: nat)
  {
    |out| == |start| + |CompletedIds(draw, n)| && out[..|start|] == start
    && Bills(out, |start|, CompletedIds(draw, n)) && ValidRows(out)
  }

  /** A billing iteration whose draw is 'Completed' writes the bill of appointment `n + 1`. */
  lemma BillStep(out: seq<Write>, start: seq<Write>, draw: (Site, nat) -> nat, n: nat, w: Write)
    requires Billed(out, start, draw, n) && Completed(draw, n + 1)
    requires n < NumAppointments && w.BillingRow? && w.id == n + 1 && w.appointmentId == w.id
    requires w.amountPaid == w.totalAmount && MinAmount <= w.totalAmount <= MaxAmount
    ensures Billed(out + [w], start, draw, n + 1)
  {
    assert ValidRow(w);
    assert (out + [w])[..|start|] == out[..|start|];
    assert CompletedIds(draw, n + 1) == CompletedIds(draw, n) + [n + 1];
  }

  /** A billing iteration whose draw is not 'Completed' writes nothing. */
  lemma Skip(out: seq<Write>, start: seq<Write>, draw: (Site, nat) -> nat, n: nat)
    requires Billed(out, start, draw, n) && !Completed(draw, n + 1)
    ensures Billed(out, start, draw, n + 1)
  {
    assert CompletedIds(draw, n + 1) == CompletedIds(draw, n);
  }

  /** The billing loop, finished, extends the layout by the bills of all 'Completed' draws. */
  lemma FinishBilling(start: seq<Write>, out: seq<Write>, draw: (Site, nat) -> nat)
    requires Laid(start, Appointments, []) && |start| == End(Appointments, [])
    requires Billed(out, start + [Heading(Billing)], draw, NumAppointments)
    ensures Laid(out, Billing, CompletedIds(draw, NumAppointments))
    ensures |out| == End(Billing, CompletedIds(draw, NumAppointments)) && ValidRows(out)
    ensures Extends(out, start)
  {
    assert out[..|start|] == out[..|start| + 1][..|start|];
    ExtendsPrefix(out, start);
    var b := CompletedIds(draw, NumAppointments);
    Rebill(start, Appointments, [], b);
    Close(start, out, Appointments, Billing, b);
  }

  /** Writes a bill for appointment `i` exactly when this loop's own status draw for `i`
      is 'Completed' (it does not consult the appointment's written status). */
  method WriteBilling(draw: (Site, nat) -> nat, fake: (Section, Fake, nat) -> string, start: seq<Write>)
    returns (out: seq<Write>)
    requires Laid(start, Appointments, []) && |start| == End(Appointments, []) && ValidRows(start)
    ensures Laid(out, Billing, CompletedIds(draw, NumAppointments))
    ensures |out| == End(Billing, CompletedIds(draw, NumAppointments)) && ValidRows(out)
    ensures Extends(out, start)
  {
    var prefix := start + [Heading(Billing)];
    assert prefix[..|prefix|] == prefix;
    out := prefix;
    for i := 1 to NumAppointments + 1
      invariant Billed(out, prefix, draw, i - 1)
    {
      if Completed(draw, i) {
        var totalAmount := RandInt(MinAmount, MaxAmount, draw(AmountSite, i));
        var w := BillingRow(i, i, totalAmount, totalAmount, fake(Billing, PayDate, i),
                            Choose(V.PaymentMethods, draw(MethodSite, i)));
        BillStep(out, prefix, draw, i - 1, w);
        out := out + [w];
      } else {
        Skip(out, prefix, draw, i - 1);
      }
    }
    FinishBilling(start, out, draw);
  }

  /** Positions `from` .. `to - 1` hold feedback rows whose comment is the escaped Faker sentence. */
  predicate CommentsEscaped(out: seq<Write>, from: nat, to: nat, fake: (Section, Fake, nat) -> string)
  {
    to <= |out| && forall k :: from <= k < to ==>
      out[k].FeedbackRow? && out[k].comments == Escape(fake(Feedback, Sentence, out[k].id))
  }

  /** Positions `from` .. `to - 1` hold referral rows whose notes are the escaped Faker sentence. */
  predicate NotesEscaped(out: seq<Write>, from: nat, to: nat, fake: (Section, Fake, nat) -> string)
  {
    to <= |out| && forall k :: from <= k < to ==>
      out[k].ReferralRow? && out[k].notes == Escape(fake(Referrals, Sentence, out[k].id))
  }

  /** Writes the feedback rows; the free-text comment is escaped before it is quoted. */
  method WriteFeedback(draw: (Site, nat) -> nat, fake: (Section, Fake, nat) -> string, start: seq<Write>,
                       patientIds: seq<nat>, appointmentIds: seq<nat>, ghost billed: seq<nat>)
    returns (out: seq<Write>)
    requires patientIds == IdRange(1, NumPatients) && appointmentIds == IdRange(1, NumAppointments)
    requires Laid(start, Billing, billed) && |start| == End(Billing, billed) && ValidRows(start)
    ensures Laid(out, Feedback, billed) && |out| == End(Feedback, billed) && ValidRows(out)
    ensures Extends(out, start)
    ensures CommentsEscaped(out, At(Feedback, |billed|), End(Feedback, billed), fake)
  {
    Open(start, Feedback);
    var prefix := start + [Heading(Feedback)];
    out := prefix;
    for i := 1 to NumFeedbacks + 1
      invariant Progress(out, prefix, Feedback, 1, i - 1)
      invariant CommentsEscaped(out, |prefix|, |out|, fake)
    {
      var patientId := Choose(patientIds, draw(FeedbackPatientSite, i));
      var appointmentId := Choose(appointmentIds, draw(FeedbackAppointmentSite, i));
      InIdRange(1, NumPatients, patientId);
      InIdRange(1, NumAppointments, appointmentId);
      var comments := Escape(fake(Feedback, Sentence, i));
      EscapedIsPaired(fake(Feedback, Sentence, i));
      var w := FeedbackRow(i, patientId, appointmentId, RandInt(1, 5, draw(RatingSite, i)), comments,
                           fake(Feedback, FeedbackDate, i));
      Step(out, prefix, Feedback, 1, i - 1, w);
      out := out + [w];
    }
    Finish(start, out, Billing, Feedback, billed, NumFeedbacks);
  }

  /** Writes the referrals; the free-text notes are escaped before they are quoted. */
  method WriteReferrals(draw: (Site, nat) -> nat, fake: (Section, Fake, nat) -> string, start: seq<Write>,
                        patientIds: seq<nat>, ghost billed: seq<nat>)
    returns (out: seq<Write>)
    requires patientIds == IdRange(1, NumPatients)
    requires Laid(start, Feedback, billed) && |start| == End(Feedback, billed) && ValidRows(start)
    ensures Laid(out, Referrals, billed) && |out| == End(Referrals, billed) && ValidRows(out)
    ensures Extends(out, start)
    ensures NotesEscaped(out, At(Referrals, |billed|), End(Referrals, billed), fake)
  {
    Open(start, Referrals);
    var prefix := start + [Heading(Referrals)];
    out := prefix;
    for i := 1 to NumReferrals + 1
      invariant Progress(out, prefix, Referrals, 1, i - 1)
      invariant NotesEscaped(out, |prefix|, |out|, fake)
    {
      var patientId := Choose(patientIds, draw(ReferralPatientSite, i));
      InIdRange(1, NumPatients, patientId);
      var physician := "Dr. " + fake(Referrals, FirstName, i) + " " + fake(Referrals, LastName, i);
      var notes := Escape(fake(Referrals, Sentence, i));
      EscapedIsPaired(fake(Referrals, Sentence, i));
      var w := ReferralRow(i, patientId, physician, fake(Referrals, ReferralDate, i), notes);
      Step(out, prefix, Referrals, 1, i - 1, w);
      out := out + [w];
    }
    Finish(start, out, Feedback, Referrals, billed, NumReferrals);
  }

  // ---------------------------------------------------------------------
  // What the layout implies about the finished script

  /** Inside the range of a placed section, every write belongs to that section. */
  lemma LocateIn(out: seq<Write>, s: Section, billed: seq<nat>, j: nat)
    requires Placed(out, s, billed) && At(s, |billed|) - 1 <= j < At(s, |billed|) + Count(s, |billed|)
    ensures j < |out| && SectionOf(out[j]) == s
  {
    if j >= At(s, |billed|) {
      assert Defines(out[j], s, if s == Billing then billed[j - At(s, |billed|)] else FirstKey(s) + j - At(s, |billed|));
    }
  }

  /** A write in the range of a section of the finished script belongs to that section. */
  lemma LocateAt(out: seq<Write>, billed: seq<nat>, s: Section, j: nat)
    requires Laid(out, Referrals, billed)
    requires At(s, |billed|) - 1 <= j < At(s, |billed|) + Count(s, |billed|)
    ensures var n := |billed|;
            j < |out| && At(SectionOf(out[j]), n) - 1 <= j < At(SectionOf(out[j]), n) + Count(SectionOf(out[j]), n)
  {
    assert Placed(out, s, billed);
    LocateIn(out, s, billed, j);
  }

  /** The section whose heading or rows occupy position `j` of a script with `billed` bills. */
  function SectionAt(j: nat, billed: nat): (s: Section)
    requires j < At(Referrals, billed) + Count(Referrals, billed)
    ensures At(s, billed) - 1 <= j < At(s, billed) + Count(s, billed)
  {
    if j < At(Doctors, billed) - 1 then Patients
    else if j < At(Services, billed) - 1 then Doctors
    else if j < At(Employees, billed) - 1 then Services
    else if j < At(Appointments, billed) - 1 then Employees
    else if j < At(Billing, billed) - 1 then Appointments
    else if j < At(Feedback, billed) - 1 then Billing
    else if j < At(Referrals, billed) - 1 then Feedback
    else Referrals
  }

  /** The sections tile the finished script: every write lies in the range of its own section. */
  lemma Locate(out: seq<Write>, billed: seq<nat>, j: nat)
    requires Laid(out, Referrals, billed) && |out| == End(Referrals, billed) && j < |out|
    ensures var t := SectionOf(out[j]); At(t, |billed|) - 1 <= j < At(t, |billed|) + Count(t, |billed|)
  {
    LocateAt(out, billed, SectionAt(j, |billed|), j);
  }

  /** The finished script never goes back to an earlier section. */
  lemma LaidOrdered(out: seq<Write>, billed: seq<nat>)
    requires Laid(out, Referrals, billed) && |out| == End(Referrals, billed)
    ensures Ordered(out)
  {
    var n := |billed|;
    forall i, j | 0 <= i < j < |out| ensures Rank(SectionOf(out[i])) <= Rank(SectionOf(out[j])) {
      Locate(out, billed, i);
      Locate(out, billed, j);
      if Rank(SectionOf(out[j])) < Rank(SectionOf(out[i])) {
        Before(SectionOf(out[j]), SectionOf(out[i]), n);
      }
    }
  }

  /** A row in range refers only to tables of earlier sections, and only to keys they define. */
  lemma KeyInRange(w: Write, r: (Section, nat), billed: nat)
    requires ValidRow(w) && r in References(w)
    ensures Rank(r.0) < Rank(SectionOf(w)) && r.0 != Billing
    ensures FirstKey(r.0) <= r.1 < FirstKey(r.0) + Count(r.0, billed)
  {
  }

  /** The row a foreign key of the finished script refers to, and where it sits. */
  lemma Referenced(out: seq<Write>, billed: seq<nat>, j: nat, r: (Section, nat))
    requires Laid(out, Referrals, billed) && |out| == End(Referrals, billed) && ValidRows(out)
    requires j < |out| && r in References(out[j])
    ensures var i := At(r.0, |billed|) + r.1 - FirstKey(r.0); 0 <= i < j && Defines(out[i], r.0, r.1)
  {
    var n := |billed|;
    assert out[j] in out;
    KeyInRange(out[j], r, n);
    Locate(out, billed, j);
    Before(r.0, SectionOf(out[j]), n);
    assert Placed(out, r.0, billed);
  }

  /** Every foreign key in the finished script refers to a row written before it. */
  lemma LaidReferencesEarlier(out: seq<Write>, billed: seq<nat>)
    requires Laid(out, Referrals, billed) && |out| == End(Referrals, billed) && ValidRows(out)
    ensures ReferencesEarlier(out)
  {
    forall j, r | 0 <= j < |out| && r in References(out[j])
      ensures exists i :: 0 <= i < j && Defines(out[i], r.0, r.1)
    {
      Referenced(out, billed, j, r);
    }
  }

  /** A billing row of the finished script carries one of the bills of the layout. */
  lemma BillOf(out: seq<Write>, billed: seq<nat>, i: nat)
    requires Laid(out, Referrals, billed) && |out| == End(Referrals, billed)
    requires i < |out| && IsRow(out[i]) && SectionOf(out[i]) == Billing
    ensures out[i].id in billed
  {
    var at := At(Billing, |billed|);
    Locate(out, billed, i);
    assert Placed(out, Billing, billed);
    assert i != at - 1;
    assert out[i].id == billed[i - at];
  }

  /** Every appointment whose billing draw came out 'Completed' gets its bill in the finished script. */
  lemma BillWritten(out: seq<Write>, draw: (Site, nat) -> nat, m: nat)
    requires Laid(out, Referrals, CompletedIds(draw, NumAppointments))
    requires 1 <= m <= NumAppointments && Completed(draw, m)
    ensures exists i :: 0 <= i < |out| && Defines(out[i], Billing, m)
  {
    var b := CompletedIds(draw, NumAppointments);
    CompletedIdsMembers(draw, NumAppointments);
    var k :| 0 <= k < |b| && b[k] == m;
    assert Placed(out, Billing, b);
    assert Defines(out[At(Billing, |b|) + k], Billing, m);
  }

  /** The finished script holds a bill for appointment `m` exactly when the billing loop's draw
      for `m` came out 'Completed'. */
  lemma BilledExactly(out: seq<Write>, draw: (Site, nat) -> nat, m: nat)
    requires Laid(out, Referrals, CompletedIds(draw, NumAppointments))
    requires |out| == End(Referrals, CompletedIds(draw, NumAppointments))
    ensures (exists i :: 0 <= i < |out| && Defines(out[i], Billing, m))
            <==> 1 <= m <= NumAppointments && Completed(draw, m)
  {
    if 1 <= m <= NumAppointments && Completed(draw, m) {
      BillWritten(out, draw, m);
    }
    if i :| 0 <= i < |out| && Defines(out[i], Billing, m) {
      var b := CompletedIds(draw, NumAppointments);
      BillOf(out, b, i);
      CompletedIdsMembers(draw, NumAppointments);
    }
  }

  /** Every comment and every note in the script is the escape of its Faker sentence. */
  predicate EscapedFields(out: seq<Write>, fake: (Section, Fake, nat) -> string)
  {
    && (forall i :: 0 <= i < |out| && out[i].FeedbackRow? ==>
          out[i].comments == Escape(fake(Feedback, Sentence, out[i].id)))
    && (forall i :: 0 <= i < |out| && out[i].ReferralRow? ==>
          out[i].notes == Escape(fake(Referrals, Sentence, out[i].id)))
  }

  /** Later writes keep the escaped comments of a finished feedback section. */
  lemma CommentsKept(a: seq<Write>, b: seq<Write>, from: nat, to: nat, fake: (Section, Fake, nat) -> string)
    requires CommentsEscaped(a, from, to, fake) && Extends(b, a)
    ensures CommentsEscaped(b, from, to, fake)
  {
    ExtendsPrefix(b, a);
    forall k | from <= k < to ensures b[k] == a[k] {
      assert b[k] == b[..|a|][k];
    }
  }

  /** In the finished script the feedback and referral rows are exactly those of their sections'
      ranges, so their escaped fields are all of them. */
  lemma LaidEscapedFields(out: seq<Write>, billed: seq<nat>, fake: (Section, Fake, nat) -> string)
    requires Laid(out, Referrals, billed) && |out| == End(Referrals, billed)
    requires CommentsEscaped(out, At(Feedback, |billed|), End(Feedback, billed), fake)
    requires NotesEscaped(out, At(Referrals, |billed|), |out|, fake)
    ensures EscapedFields(out, fake)
  {
    forall i | 0 <= i < |out| && out[i].FeedbackRow?
      ensures out[i].comments == Escape(fake(Feedback, Sentence, out[i].id))
    {
      Locate(out, billed, i);
      assert Placed(out, Feedback, billed);
    }
    forall i | 0 <= i < |out| && out[i].ReferralRow?
      ensures out[i].notes == Escape(fake(Referrals, Sentence, out[i].id))
    {
      Locate(out, billed, i);
      assert Placed(out, Referrals, billed);
    }
  }

  /** What a fully laid out script guarantees as a whole, `feedback` being the script as it
      stood when the feedback section was finished. */
  lemma LaidScript(feedback: seq<Write>, out: seq<Write>, billed: seq<nat>, fake: (Section, Fake, nat) -> string)
    requires Laid(out, Referrals, billed) && |out| == End(Referrals, billed) && ValidRows(out)
    requires |feedback| == End(Feedback, billed) && Extends(out, feedback)
    requires CommentsEscaped(feedback, At(Feedback, |billed|), End(Feedback, billed), fake)
    requires NotesEscaped(out, At(Referrals, |billed|), End(Referrals, billed), fake)
    ensures Ordered(out) && ReferencesEarlier(out) && Use <= Script(out) && EscapedFields(out, fake)
  {
    LaidOrdered(out, billed);
    LaidReferencesEarlier(out, billed);
    assert Placed(out, Patients, billed);
    ScriptStartsWithUse(out);
    CommentsKept(feedback, out, At(Feedback, |billed|), End(Feedback, billed), fake);
    LaidEscapedFields(out, billed, fake);
  }

  /** The whole script run: the writes to `insert_data.sql`, section by section, and the id pools. */
  method GenerateInsertData(draw: (Site, nat) -> nat, fake: (Section, Fake, nat) -> string)
    returns (out: seq<Write>, patientIds: seq<nat>, doctorIds: seq<nat>, serviceIds: seq<nat>,
             employeeIds: seq<nat>, appointmentIds: seq<nat>)
    ensures patientIds == IdRange(1, NumPatients) && doctorIds == IdRange(1, NumDoctors)
    ensures serviceIds == IdRange(1, NumServices) && appointmentIds == IdRange(1, NumAppointments)
    ensures employeeIds == IdRange(1, NumDoctors) + IdRange(NumDoctors + 1, NumEmployees)
    ensures forall i, j :: 0 <= i < j < |employeeIds| ==> employeeIds[i] != employeeIds[j]
    ensures Laid(out, Referrals, CompletedIds(draw, NumAppointments))
    ensures |out| == End(Referrals, CompletedIds(draw, NumAppointments))
    ensures ValidRows(out) && Ordered(out) && ReferencesEarlier(out)
    ensures Use <= Script(out)
    ensures EscapedFields(out, fake)
  {
    var patients, doctors, services, employees, appointments, billing, feedback;
    patients, patientIds := WritePatients(draw, fake);
    doctors, doctorIds, employeeIds := WriteDoctors(draw, fake, patients);
    services, serviceIds := WriteServices(draw, fake, doctors);
    employees, employeeIds := WriteEmployees(draw, fake, services, employeeIds);
    appointments, appointmentIds := WriteAppointments(draw, fake, employees, patientIds, doctorIds, serviceIds);
    billing := WriteBilling(draw, fake, appointments);
    ghost var billed := CompletedIds(draw, NumAppointments);
    feedback := WriteFeedback(draw, fake, billing, patientIds, appointmentIds, billed);
    out := WriteReferrals(draw, fake, feedback, patientIds, billed);
    forall i, j | 0 <= i < j < |employeeIds| ensures employeeIds[i] != employeeIds[j] {
    }
    LaidScript(feedback, out, billed, fake);
  }
}
