/**
 * The vocabulary of the platform: the string enumerations and the row
 * records of lib/types.ts. Timestamps are integers (only their order is
 * used), optional columns are `Option`s, strings are `seq<char>`.
 */
module Types {

  datatype Option<+T> = None | Some(value: T)

  /** What a form handler decides: the row it sends, or the message it shows. */
  datatype Result<+T> = Ok(value: T) | Err(message: string)

  // ---------------------------------------------------------------------
  // Enumerations (lib/types.ts:1-4) and their string forms
  // ---------------------------------------------------------------------

  datatype UserRole = Student | Tutor
  datatype EducationLevel = Primaria | Basicos | Diversificado
  datatype SubjectType = Matematicas | Lenguaje | Ciencias | Sociales | Ingles
  datatype TutoringStatus = Pending | Accepted | Completed | Cancelled

  const AllRoles: seq<UserRole> := [Student, Tutor]
  const AllLevels: seq<EducationLevel> := [Primaria, Basicos, Diversificado]
  const AllSubjects: seq<SubjectType> := [Matematicas, Lenguaje, Ciencias, Sociales, Ingles]
  const AllStatuses: seq<TutoringStatus> := [Pending, Accepted, Completed, Cancelled]

  /** Reads a stored role string; anything but the two literals is not a role. */
  function ParseRole(s: string): Option<UserRole>
  {
    if s == "student" then Some(Student)
    else if s == "tutor" then Some(Tutor)
    else None
  }

  /** The string a role is stored as. */
  function RoleName(r: UserRole): (s: string)
    ensures ParseRole(s) == Some(r)
  {
    match r
    case Student => "student"
    case Tutor => "tutor"
  }

  function ParseLevel(s: string): Option<EducationLevel>
  {
    if s == "primaria" then Some(Primaria)
    else if s == "basicos" then Some(Basicos)
    else if s == "diversificado" then Some(Diversificado)
    else None
  }

  function LevelName(l: EducationLevel): (s: string)
    ensures ParseLevel(s) == Some(l)
  {
    match l
    case Primaria => "primaria"
    case Basicos => "basicos"
    case Diversificado => "diversificado"
  }

  function ParseSubject(s: string): Option<SubjectType>
  {
    if s == "matematicas" then Some(Matematicas)
    else if s == "lenguaje" then Some(Lenguaje)
    else if s == "ciencias" then Some(Ciencias)
    else if s == "sociales" then Some(Sociales)
    else if s == "ingles" then Some(Ingles)
    else None
  }

  function SubjectName(t: SubjectType): (s: string)
    ensures ParseSubject(s) == Some(t)
  {
    match t
    case Matematicas => "matematicas"
    case Lenguaje => "lenguaje"
    case Ciencias => "ciencias"
    case Sociales => "sociales"
    case Ingles => "ingles"
  }

  function ParseStatus(s: string): Option<TutoringStatus>
  {
    if s == "pending" then Some(Pending)
    else if s == "accepted" then Some(Accepted)
    else if s == "completed" then Some(Completed)
    else if s == "cancelled" then Some(Cancelled)
    else None
  }

  function StatusName(t: TutoringStatus): (s: string)
    ensures ParseStatus(s) == Some(t)
  {
    match t
    case Pending => "pending"
    case Accepted => "accepted"
    case Completed => "completed"
    case Cancelled => "cancelled"
  }

  /** Each enumeration has exactly the listed values, all distinct. */
  lemma EnumerationsAreExact()
    ensures forall r: UserRole :: r in AllRoles
    ensures forall l: EducationLevel :: l in AllLevels
    ensures forall t: SubjectType :: t in AllSubjects
    ensures forall t: TutoringStatus :: t in AllStatuses
    ensures |AllRoles| == 2 && |AllLevels| == 3 && |AllSubjects| == 5 && |AllStatuses| == 4
    ensures forall i, j :: 0 <= i < j < |AllRoles| ==> AllRoles[i] != AllRoles[j]
    ensures forall i, j :: 0 <= i < j < |AllLevels| ==> AllLevels[i] != AllLevels[j]
    ensures forall i, j :: 0 <= i < j < |AllSubjects| ==> AllSubjects[i] != AllSubjects[j]
    ensures forall i, j :: 0 <= i < j < |AllStatuses| ==> AllStatuses[i] != AllStatuses[j]
  {
    forall t: SubjectType ensures t in AllSubjects {
      match t
      case Matematicas => assert AllSubjects[0] == t;
      case Lenguaje => assert AllSubjects[1] == t;
      case Ciencias => assert AllSubjects[2] == t;
      case Sociales => assert AllSubjects[3] == t;
      case Ingles => assert AllSubjects[4] == t;
    }
    forall t: TutoringStatus ensures t in AllStatuses {
      match t
      case Pending => assert AllStatuses[0] == t;
      case Accepted => assert AllStatuses[1] == t;
      case Completed => assert AllStatuses[2] == t;
      case Cancelled => assert AllStatuses[3] == t;
    }
    forall l: EducationLevel ensures l in AllLevels {
      match l
      case Primaria => assert AllLevels[0] == l;
      case Basicos => assert AllLevels[1] == l;
      case Diversificado => assert AllLevels[2] == l;
    }
    forall r: UserRole ensures r in AllRoles {
      match r
      case Student => assert AllRoles[0] == r;
      case Tutor => assert AllRoles[1] == r;
    }
  }

  /** A string is accepted as an enumeration value exactly when it is one of
      the literals, and then it is that value's name. */
  lemma {:induction false} ParsedNamesRoundTrip(s: string)
    ensures ParseRole(s).Some? ==> RoleName(ParseRole(s).value) == s
    ensures ParseLevel(s).Some? ==> LevelName(ParseLevel(s).value) == s
    ensures ParseSubject(s).Some? ==> SubjectName(ParseSubject(s).value) == s
    ensures ParseStatus(s).Some? ==> StatusName(ParseStatus(s).value) == s
    ensures ParseRole(s).Some? <==> s == "student" || s == "tutor"
    ensures ParseStatus(s).Some? <==> s in ["pending", "accepted", "completed", "cancelled"]
  {
  }

  // ---------------------------------------------------------------------
  // Records (lib/types.ts:6-83)
  // ---------------------------------------------------------------------

  datatype Profile = Profile(
    id: string,
    email: string,
    fullName: string,
    age: Option<int>,
    role: UserRole,
    educationLevel: Option<EducationLevel>,
    createdAt: int,
    updatedAt: int)

  datatype EducationalContent = EducationalContent(
    id: string,
    subject: SubjectType,
    title: string,
    description: Option<string>,
    content: string,
    educationLevel: EducationLevel,
    createdBy: Option<string>,
    createdAt: int,
    updatedAt: int)

  datatype Question = Question(question: string, options: seq<string>, correct: int)

  datatype Evaluation = Evaluation(
    id: string,
    subject: SubjectType,
    title: string,
    description: Option<string>,
    educationLevel: EducationLevel,
    questions: seq<Question>,
    createdBy: Option<string>,
    createdAt: int)

  datatype EvaluationResult = EvaluationResult(
    id: string,
    evaluationId: string,
    studentId: string,
    answers: seq<int>,
    score: Option<int>,
    completedAt: int)

  datatype TutoringRequest = TutoringRequest(
    id: string,
    studentId: string,
    tutorId: Option<string>,
    subject: SubjectType,
    description: string,
    status: TutoringStatus,
    scheduledDate: Option<int>,
    createdAt: int,
    updatedAt: int)

  datatype ForumPost = ForumPost(
    id: string,
    authorId: string,
    subject: Option<SubjectType>,
    title: string,
    content: string,
    createdAt: int,
    updatedAt: int)

  datatype ForumComment = ForumComment(
    id: string,
    postId: string,
    authorId: string,
    content: string,
    createdAt: int)
}
