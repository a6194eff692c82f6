/** The behaviour of the database models in models.py that the rest of the
    model relies on: a user's password (set and checked), the hash of an
    audit-chain block, the validity and status text of a licence, and the
    expiry of a training record.

    The password key-derivation function, SHA-256 and the JSON serialiser
    are not modelled; they arrive as function parameters. Dates are day
    numbers and moments are integers; "today" and "now" are parameters. */
module Models {
  import opened Common

  // =====================================================================
  // Users and passwords

  /** The salted key-derivation function behind generate_password_hash:
      (salt, password) to digest. */
  type Kdf = (string, string) -> string

  /** A stored password hash: the salt it was made with and the digest. */
  datatype PasswordHash = PasswordHash(salt: string, digest: string)

  function HashPassword(password: string, salt: string, kdf: Kdf): (h: PasswordHash)
    ensures h.salt == salt && h.digest == kdf(salt, password)
  {
    PasswordHash(salt, kdf(salt, password))
  }

  /** check_password_hash: the password matches when it derives the stored
      digest under the stored salt. */
  predicate PasswordMatches(h: PasswordHash, password: string, kdf: Kdf) {
    kdf(h.salt, password) == h.digest
  }

  /** A fresh hash accepts its own password, and accepts another one
      exactly when the two collide under the salt. */
  lemma HashThenCheck(password: string, other: string, salt: string, kdf: Kdf)
    ensures PasswordMatches(HashPassword(password, salt, kdf), password, kdf)
    ensures PasswordMatches(HashPassword(password, salt, kdf), other, kdf) <==> kdf(salt, other) == kdf(salt, password)
  {
  }

  datatype Account = Account(
    username: string,
    isAdmin: bool,
    isActive: bool,
    passwordHash: PasswordHash,
    passwordChangedAt: Option<int>,
    passwordResetRequired: bool,
    passwordResetToken: Option<string>,
    passwordResetExpires: Option<int>)

  /** set_password on an account value: new hash, change stamped, every
      trace of a pending reset cleared. */
  function WithPassword(a: Account, password: string, salt: string, now: int, kdf: Kdf): (r: Account)
    ensures PasswordMatches(r.passwordHash, password, kdf)
    ensures r.passwordChangedAt == Some(now)
    ensures !r.passwordResetRequired && r.passwordResetToken.None? && r.passwordResetExpires.None?
    ensures r.username == a.username && r.isAdmin == a.isAdmin && r.isActive == a.isActive
  {
    a.(passwordHash := HashPassword(password, salt, kdf), passwordChangedAt := Some(now),
       passwordResetRequired := false, passwordResetToken := None, passwordResetExpires := None)
  }

  /** Setting a password twice is the same as setting it once with the
      later values: nothing of the earlier call remains. */
  lemma WithPasswordOverwrites(a: Account, p1: string, s1: string, t1: int, p2: string, s2: string, t2: int, kdf: Kdf)
    ensures WithPassword(WithPassword(a, p1, s1, t1, kdf), p2, s2, t2, kdf) == WithPassword(a, p2, s2, t2, kdf)
  {
  }

  class User {
    var username: string
    var isAdmin: bool
    var isActive: bool
    var passwordHash: PasswordHash
    var passwordChangedAt: Option<int>
    var passwordResetRequired: bool
    var passwordResetToken: Option<string>
    var passwordResetExpires: Option<int>

    function Current(): Account
      reads this
    {
      Account(username, isAdmin, isActive, passwordHash, passwordChangedAt,
              passwordResetRequired, passwordResetToken, passwordResetExpires)
    }

    constructor (a: Account)
      ensures Current() == a
    {
      username, isAdmin, isActive := a.username, a.isAdmin, a.isActive;
      passwordHash, passwordChangedAt := a.passwordHash, a.passwordChangedAt;
      passwordResetRequired, passwordResetToken, passwordResetExpires :=
        a.passwordResetRequired, a.passwordResetToken, a.passwordResetExpires;
    }

    /** set_password: the five password fields, in place. */
    method SetPassword(password: string, salt: string, now: int, kdf: Kdf)
      modifies this
      ensures Current() == WithPassword(old(Current()), password, salt, now, kdf)
      ensures CheckPassword(password, kdf)
    {
      passwordHash := HashPassword(password, salt, kdf);
      passwordChangedAt := Some(now);
      passwordResetRequired := false;
      passwordResetToken := None;
      passwordResetExpires := None;
    }

    predicate CheckPassword(password: string, kdf: Kdf)
      reads this
    {
      PasswordMatches(passwordHash, password, kdf)
    }
  }

  // =====================================================================
  // Audit-chain blocks

  /** A row of the audit chain (BlockchainEventLog). The timestamp is its
      ISO text, absent when not set. */
  datatype Block = Block(
    id: nat,
    blockIndex: int,
    eventType: string,
    description: string,
    timestamp: Option<string>,
    blockHash: string,
    previousHash: string,
    nonce: int,
    userId: Option<nat>,
    ipAddress: Option<string>,
    createdAt: Option<int>)

  /** The fields that enter a block's hash, with an absent timestamp as "". */
  datatype HashedFields = HashedFields(
    blockIndex: int,
    eventType: string,
    description: string,
    timestamp: string,
    previousHash: string,
    nonce: int,
    userId: Option<nat>)

  /** SHA-256 of the sorted-key JSON text of the hashed fields. */
  type BlockDigest = HashedFields -> string

  function HashedFieldsOf(b: Block): (f: HashedFields)
    ensures f.blockIndex == b.blockIndex && f.eventType == b.eventType && f.description == b.description
    ensures f.previousHash == b.previousHash && f.nonce == b.nonce && f.userId == b.userId
    ensures f.timestamp == if b.timestamp.Some? then b.timestamp.value else ""
  {
    HashedFields(b.blockIndex, b.eventType, b.description,
                 if b.timestamp.Some? then b.timestamp.value else "", b.previousHash, b.nonce, b.userId)
  }

  function CalculateHash(b: Block, digest: BlockDigest): string {
    digest(HashedFieldsOf(b))
  }

  /** The row id, the IP address, the creation time and the stored hash do
      not enter the hash; two blocks that agree on the seven hashed fields
      hash alike. */
  lemma HashIgnoresBookkeeping(a: Block, b: Block, digest: BlockDigest)
    requires a.blockIndex == b.blockIndex && a.eventType == b.eventType && a.description == b.description
    requires a.timestamp == b.timestamp && a.previousHash == b.previousHash && a.nonce == b.nonce
    requires a.userId == b.userId
    ensures CalculateHash(a, digest) == CalculateHash(b, digest)
  {
  }

  // =====================================================================
  // Licences

  datatype License = License(
    licenseKey: string,
    licenseType: string,
    maxUsers: int,
    maxDoors: int,
    anomalyDetectionEnabled: bool,
    pdfReportsEnabled: bool,
    scheduledReportsEnabled: bool,
    apiAccessEnabled: bool,
    isActive: bool,
    expirationDate: Option<int>,
    supportExpirationDate: Option<int>,
    customerName: string,
    customerEmail: string,
    companyName: Option<string>)

  /** is_valid on day `today`: active, and not past its expiration date
      if it has one. */
  predicate IsValid(l: License, today: int) {
    l.isActive && (l.expirationDate.None? || today <= l.expirationDate.value)
  }

  const ExpiresPrefix: string := "License expires in "

  /** get_status on day `today`. */
  function GetStatus(l: License, today: int): (s: string)
    ensures !l.isActive ==> s == "License is inactive"
    ensures l.isActive && l.expirationDate.Some? && today > l.expirationDate.value ==> s == "License has expired"
    ensures l.isActive && l.expirationDate.Some? && 0 <= l.expirationDate.value - today <= 30 ==>
      s == ExpiresPrefix + IntToString(l.expirationDate.value - today) + " days"
    ensures l.isActive && (l.expirationDate.None? || l.expirationDate.value - today > 30) ==> s == "Active"
  {
    if !l.isActive then "License is inactive"
    else if l.expirationDate.Some? && today > l.expirationDate.value then "License has expired"
    else if l.expirationDate.Some? && l.expirationDate.value - today <= 30 then
      ExpiresPrefix + IntToString(l.expirationDate.value - today) + " days"
    else "Active"
  }

  /** A licence is valid exactly when its status is "Active" or a
      countdown; on its expiration day it is still valid, with 0 days left. */
  lemma ValidIffActiveStatus(l: License, today: int)
    ensures IsValid(l, today) <==> (GetStatus(l, today) == "Active" || StartsWith(GetStatus(l, today), ExpiresPrefix))
    ensures l.isActive && l.expirationDate == Some(today) ==>
      IsValid(l, today) && GetStatus(l, today) == ExpiresPrefix + "0 days"
  {
    var s := GetStatus(l, today);
    if !l.isActive {
      assert s[..|ExpiresPrefix|][8] != ExpiresPrefix[8];
    } else if l.expirationDate.Some? && today > l.expirationDate.value {
      assert s[..|ExpiresPrefix|][9] != ExpiresPrefix[9];
    } else if l.expirationDate.Some? && l.expirationDate.value - today <= 30 {
      assert s[..|ExpiresPrefix|] == ExpiresPrefix;
    }
  }

  // =====================================================================
  // Training records

  /** is_expired at moment `now`: strictly after the expiration date, and
      never without one. */
  predicate IsExpired(expirationDate: Option<int>, now: int) {
    expirationDate.Some? && now > expirationDate.value
  }

  /** Once expired, a record stays expired. */
  lemma ExpiryIsPermanent(expirationDate: Option<int>, now: int, later: int)
    requires IsExpired(expirationDate, now) && now <= later
    ensures IsExpired(expirationDate, later)
  {
  }
}
