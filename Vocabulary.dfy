/** The fixed vocabularies the synthetic-data script draws categorical
    columns from, each with the exact text written into the SQL script and
    the list (in the script's order) that `random.choice` picks from. */
module Vocabulary {

  datatype Gender = M | F
  {
    function Label(): string
    {
      match this
      case M => "M"
      case F => "F"
    }
  }

  datatype Specialization =
    | Cardiology | Dermatology | Orthopedics | Radiology | Pediatrics | Neurology | Ophthalmology
    | Gynecology | Endocrinology | Gastroenterology | Psychiatry | Oncology | Urology | Pulmonology
  {
    function Label(): string
    {
      match this
      case Cardiology => "Cardiology"
      case Dermatology => "Dermatology"
      case Orthopedics => "Orthopedics"
      case Radiology => "Radiology"
      case Pediatrics => "Pediatrics"
      case Neurology => "Neurology"
      case Ophthalmology => "Ophthalmology"
      case Gynecology => "Gynecology"
      case Endocrinology => "Endocrinology"
      case Gastroenterology => "Gastroenterology"
      case Psychiatry => "Psychiatry"
      case Oncology => "Oncology"
      case Urology => "Urology"
      case Pulmonology => "Pulmonology"
    }
  }

  datatype ServiceCategory =
    | Consultation | Cardiology | Dermatology | Radiology | Pediatrics | Neurology | Ophthalmology
    | Gynecology | Laboratory | Endocrinology | Gastroenterology | Psychiatry | Oncology | Urology | Pulmonology
  {
    function Label(): string
    {
      match this
      case Consultation => "Consultation"
      case Cardiology => "Cardiology"
      case Dermatology => "Dermatology"
      case Radiology => "Radiology"
      case Pediatrics => "Pediatrics"
      case Neurology => "Neurology"
      case Ophthalmology => "Ophthalmology"
      case Gynecology => "Gynecology"
      case Laboratory => "Laboratory"
      case Endocrinology => "Endocrinology"
      case Gastroenterology => "Gastroenterology"
      case Psychiatry => "Psychiatry"
      case Oncology => "Oncology"
      case Urology => "Urology"
      case Pulmonology => "Pulmonology"
    }
  }

  datatype Role = Nurse | Admin | Technician | Receptionist
  {
    function Label(): string
    {
      match this
      case Nurse => "Nurse"
      case Admin => "Admin"
      case Technician => "Technician"
      case Receptionist => "Receptionist"
    }
  }

  datatype Department = FrontDesk | Billing | Laboratory | Radiology
  {
    function Label(): string
    {
      match this
      case FrontDesk => "Front Desk"
      case Billing => "Billing"
      case Laboratory => "Laboratory"
      case Radiology => "Radiology"
    }
  }

  datatype Status = Scheduled | Completed | Cancelled | NoShow
  {
    function Label(): string
    {
      match this
      case Scheduled => "Scheduled"
      case Completed => "Completed"
      case Cancelled => "Cancelled"
      case NoShow => "No-Show"
    }
  }

  datatype PaymentMethod = Cash | Card | Insurance
  {
    function Label(): string
    {
      match this
      case Cash => "Cash"
      case Card => "Card"
      case Insurance => "Insurance"
    }
  }

  const Genders: seq<Gender> := [M, F]
  const Specializations: seq<Specialization> :=
    [Specialization.Cardiology, Specialization.Dermatology, Orthopedics, Specialization.Radiology,
     Specialization.Pediatrics, Specialization.Neurology, Specialization.Ophthalmology, Specialization.Gynecology,
     Specialization.Endocrinology, Specialization.Gastroenterology, Specialization.Psychiatry,
     Specialization.Oncology, Specialization.Urology, Specialization.Pulmonology]
  const ServiceCategories: seq<ServiceCategory> :=
    [Consultation, ServiceCategory.Cardiology, ServiceCategory.Dermatology, ServiceCategory.Radiology,
     ServiceCategory.Pediatrics, ServiceCategory.Neurology, ServiceCategory.Ophthalmology,
     ServiceCategory.Gynecology, ServiceCategory.Laboratory, ServiceCategory.Endocrinology,
     ServiceCategory.Gastroenterology, ServiceCategory.Psychiatry, ServiceCategory.Oncology,
     ServiceCategory.Urology, ServiceCategory.Pulmonology]
  const Roles: seq<Role> := [Nurse, Admin, Technician, Receptionist]
  const Departments: seq<Department> := [FrontDesk, Department.Billing, Department.Laboratory, Department.Radiology]
  /** The appointment loop's statuses (drawn with weights 10, 70, 10, 10). */
  const AppointmentStatuses: seq<Status> := [Scheduled, Completed, Cancelled, NoShow]
  /** The billing loop's own status draw (weights 70, 15, 15); it never yields 'Scheduled'. */
  const BillingStatuses: seq<Status> := [Completed, Cancelled, NoShow]
  const PaymentMethods: seq<PaymentMethod> := [Cash, Card, Insurance]
}
