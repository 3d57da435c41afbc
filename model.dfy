/** The rows of TaskFlow's four tables, and the password-hashing primitive.
    Timestamps are milliseconds since the epoch, as JavaScript's `Date.getTime()`. */
module Model {
  import opened Common

  type UserId = string
  type ProjectId = string
  type TaskId = string
  type NotificationId = string

  /** The cost factor passed to `bcrypt.hash(password, 10)`. */
  const SaltRounds: nat := 10

  /** The UTF-8 encoding of one character, as bcryptjs encodes a password. */
  function Utf8Char(c: char): (b: seq<int>)
    ensures 1 <= |b| <= 4
    ensures forall i | 0 <= i < |b| :: 0 <= b[i] < 256
    ensures (b[0] == 0) <==> c == 0 as char
  {
    var cp := c as int;
    if cp < 0x80 then [cp]
    else if cp < 0x800 then [0xC0 + cp / 0x40, 0x80 + cp % 0x40]
    else if cp < 0x1_0000 then [0xE0 + cp / 0x1000, 0x80 + (cp / 0x40) % 0x40, 0x80 + cp % 0x40]
    else [0xF0 + cp / 0x4_0000, 0x80 + (cp / 0x1000) % 0x40, 0x80 + (cp / 0x40) % 0x40, 0x80 + cp % 0x40]
  }

  function Utf8(s: string): seq<int> {
    if s == [] then [] else Utf8Char(s[0]) + Utf8(s[1..])
  }

  lemma {:induction false} Utf8Append(s: string, t: string)
    ensures Utf8(s + t) == Utf8(s) + Utf8(t)
  {
    if s == [] {
      assert s + t == t;
    } else {
      assert (s + t)[0] == s[0] && (s + t)[1..] == s[1..] + t;
      Utf8Append(s[1..], t);
    }
  }

  /** The number of key bytes bcrypt's Blowfish key schedule reads. */
  const BcryptKeyBytes := 72

  /** `b` repeated until `n` bytes are taken. */
  function Cycle(b: seq<int>, n: nat): (r: seq<int>)
    requires b != []
    ensures |r| == n
    ensures n <= |b| ==> r == b[..n]
    ensures n > |b| ==> r[..|b|] == b
    decreases n
  {
    if n <= |b| then b[..n] else b + Cycle(b, n - |b|)
  }

  /** The 72 bytes that bcrypt keys Blowfish with: the UTF-8 bytes of the password
      followed by the terminating NUL of the `$2a$` scheme, repeated cyclically.
      Bytes past the 72nd never reach the digest. */
  function BcryptKey(password: string): (k: seq<int>)
    ensures |k| == BcryptKeyBytes
    ensures |Utf8(password)| >= BcryptKeyBytes ==> k == Utf8(password)[..BcryptKeyBytes]
    ensures |Utf8(password)| < BcryptKeyBytes ==>
              k[..|Utf8(password)|] == Utf8(password) && k[|Utf8(password)|] == 0
  {
    var u := Utf8(password);
    var k := Cycle(u + [0], BcryptKeyBytes);
    assert |u| >= BcryptKeyBytes ==> (u + [0])[..BcryptKeyBytes] == u[..BcryptKeyBytes];
    assert |u| < BcryptKeyBytes ==> k[..|u| + 1] == u + [0] && k[..|u|] == (u + [0])[..|u|];
    k
  }

  /** A stored bcrypt digest. The model keeps what `bcrypt.compare` needs to
      decide a match, the cost and the key bytes; the salt and the one-way
      property are not modelled. */
  datatype PasswordHash = Bcrypt(rounds: nat, key: seq<int>)

  /** `bcrypt.hash(password, 10)`. */
  function Hash(password: string): (h: PasswordHash)
    ensures h.rounds == SaltRounds
    ensures Compare(password, h)
  {
    Bcrypt(SaltRounds, BcryptKey(password))
  }

  /** `bcrypt.compare(password, hash)`: the password is accepted exactly when it
      yields the key bytes the digest was made from. */
  predicate Compare(password: string, hash: PasswordHash) {
    BcryptKey(password) == hash.key
  }

  /** Two passwords whose UTF-8 forms agree on the first 72 bytes are
      interchangeable: each one signs in against the other's hash. */
  lemma LongPasswordsCollide(p: string, x: string, y: string)
    requires |Utf8(p)| >= BcryptKeyBytes
    ensures Compare(p + x, Hash(p + y))
  {
    Utf8Append(p, x);
    Utf8Append(p, y);
    assert Utf8(p + x)[..BcryptKeyBytes] == Utf8(p)[..BcryptKeyBytes] == Utf8(p + y)[..BcryptKeyBytes];
  }

  datatype User = User(id: UserId, name: string, email: string, password: PasswordHash)

  /** The `{ id, name, email }` projection returned by `getCurrentUser`. */
  datatype PublicUser = PublicUser(id: UserId, name: string, email: string)

  datatype Project = Project(
    id: ProjectId,
    name: string,
    description: string,
    status: string,
    userId: UserId,
    createdAt: int,
    updatedAt: int)

  datatype Task = Task(
    id: TaskId,
    title: string,
    description: string,
    status: string,
    priority: string,
    dueDate: Option<int>,
    projectId: ProjectId,
    assigneeId: Option<UserId>,
    createdAt: int,
    updatedAt: int)

  /** `kind` is the row's `type` column. */
  datatype Notification = Notification(
    id: NotificationId,
    userId: UserId,
    title: string,
    message: string,
    kind: string,
    relatedId: Option<string>,
    relatedType: Option<string>,
    isRead: bool,
    createdAt: int)

  /** The project column default. */
  const ProjectActive := "active"

  const StatusValues: set<string> := {"todo", "in-progress", "completed"}
  const PriorityValues: set<string> := {"low", "medium", "high"}

  function ProjectUpdatedAt(p: Project): int { p.updatedAt }
  function TaskUpdatedAt(t: Task): int { t.updatedAt }
  function NotificationCreatedAt(n: Notification): int { n.createdAt }
}
