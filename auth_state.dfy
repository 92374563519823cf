/** The session hook (hooks/useAuth.ts): three flags held in component
    state, a credential gate, and their persistence under one storage key. */
module AuthState {

  import opened Common

  /** The three session flags. */
  datatype Flags = Flags(isAuthenticated: bool, hasCompletedOnboarding: bool, hasCompletedKYC: bool)

  const SignedOut := Flags(false, false, false)

  /** The storage key the flags are saved under. */
  const AuthKey := "auth_state"

  /** A JSON value, as `JSON.parse` yields it. */
  datatype Json =
    | JNull
    | JBool(b: bool)
    | JNum(n: real)
    | JStr(s: string)
    | JArray(items: seq<Json>)
    | JObject(fields: map<string, Json>)

  /** A stored entry: text that `JSON.parse` reads as a value, or text it
      rejects. */
  datatype Stored = Json(value: Json) | Unparsable(raw: string)

  /** JavaScript truthiness of a JSON value (JSON has no NaN). */
  predicate Truthy(v: Json)
  {
    match v
    case JNull => false
    case JBool(b) => b
    case JNum(n) => n != 0.0
    case JStr(s) => s != ""
    case JArray(_) => true
    case JObject(_) => true
  }

  /** `authState[key] || false` on a parsed value that is not null: a
      missing field, or a field of a value that is not an object, reads as
      undefined and so as false. */
  predicate FieldOrFalse(v: Json, key: string)
  {
    v.JObject? && key in v.fields && Truthy(v.fields[key])
  }

  /** What `JSON.stringify` of the saved object denotes. */
  function Encode(f: Flags): (v: Json)
    ensures v.JObject? && v.fields.Keys == {"isAuthenticated", "hasCompletedOnboarding", "hasCompletedKYC"}
  {
    JObject(map[
      "isAuthenticated" := JBool(f.isAuthenticated),
      "hasCompletedOnboarding" := JBool(f.hasCompletedOnboarding),
      "hasCompletedKYC" := JBool(f.hasCompletedKYC)])
  }

  /** The load effect: the flags it sets, or None when it sets none (no
      entry, text that does not parse, or a parsed `null`, whose field
      access throws inside the `try`). */
  function Decode(saved: Option<Stored>): (r: Option<Flags>)
    ensures r.None? <==> saved.None? || saved.value.Unparsable? || saved.value.value.JNull?
    ensures r.Some? ==> !saved.value.value.JObject? ==> r.value == SignedOut
  {
    match saved
    case None => None
    case Some(Unparsable(_)) => None
    case Some(Json(JNull)) => None
    case Some(Json(v)) =>
      Some(Flags(FieldOrFalse(v, "isAuthenticated"),
                 FieldOrFalse(v, "hasCompletedOnboarding"),
                 FieldOrFalse(v, "hasCompletedKYC")))
  }

  /** Loading what the save effect wrote restores the same three flags. */
  lemma DecodeEncode(f: Flags)
    ensures Decode(Some(Json(Encode(f)))) == Some(f)
  {
    var v := Encode(f);
    assert v.fields["isAuthenticated"] == JBool(f.isAuthenticated);
    assert v.fields["hasCompletedOnboarding"] == JBool(f.hasCompletedOnboarding);
    assert v.fields["hasCompletedKYC"] == JBool(f.hasCompletedKYC);
  }

  /** A field that is missing, or present with a falsy value, loads as
      false; one with a truthy value loads as true. */
  lemma DecodeField(fields: map<string, Json>)
    ensures Decode(Some(Json(JObject(fields)))).Some?
    ensures Decode(Some(Json(JObject(fields)))).value.isAuthenticated
            <==> "isAuthenticated" in fields && Truthy(fields["isAuthenticated"])
    ensures Decode(Some(Json(JObject(fields)))).value.hasCompletedOnboarding
            <==> "hasCompletedOnboarding" in fields && Truthy(fields["hasCompletedOnboarding"])
    ensures Decode(Some(Json(JObject(fields)))).value.hasCompletedKYC
            <==> "hasCompletedKYC" in fields && Truthy(fields["hasCompletedKYC"])
  {
  }

  /** `String.prototype.length`: the number of UTF-16 code units, in which
      a character outside the Basic Multilingual Plane takes two. */
  function Utf16Length(s: string): (n: nat)
    ensures |s| <= n <= 2 * |s|
  {
    if |s| == 0 then 0
    else (if s[0] as int >= 0x10000 then 2 else 1) + Utf16Length(s[1..])
  }

  /** The login credential gate: a non-empty email and a password of at
      least six UTF-16 code units. */
  predicate CredentialsAccepted(email: string, password: string)
  {
    email != "" && Utf16Length(password) >= 6
  }

  /** Three emoji make a password of length 6, so they pass the gate;
      five characters of the Basic Multilingual Plane do not. */
  lemma {:induction false} AstralPasswordLength()
    ensures CredentialsAccepted("a@b.c", "\U{1F600}\U{1F600}\U{1F600}")
    ensures !CredentialsAccepted("a@b.c", "abcde")
  {
    var e := "\U{1F600}";
    assert Utf16Length(e) == 2;
    assert Utf16Length(e + e) == 4 by {
      assert (e + e)[1..] == e;
    }
    assert Utf16Length(e + e + e) == 6 by {
      assert (e + e + e)[1..] == e + e;
    }
    assert "\U{1F600}\U{1F600}\U{1F600}" == e + e + e;
  }

  /** The entries after the save effect has seen the flags go from
      `before` to `after`: the key is rewritten on a change and the store is
      untouched otherwise. */
  function Saved(entries: map<string, Stored>, before: Flags, after: Flags): map<string, Stored>
  {
    if after != before then entries[AuthKey := Json(Encode(after))] else entries
  }

  /** The shared key-value store (`localStorage`). */
  class Storage {
    var entries: map<string, Stored>

    constructor(entries: map<string, Stored>)
      ensures this.entries == entries
    {
      this.entries := entries;
    }

    function Get(key: string): (r: Option<Stored>)
      reads this
      ensures r.Some? <==> key in entries
      ensures r.Some? ==> r.value == entries[key]
    {
      if key in entries then Some(entries[key]) else None
    }
  }

  /** One `useAuth()` instance: its three state fields and the store its
      effects read and write. */
  class Session {
    var isAuthenticated: bool
    var hasCompletedOnboarding: bool
    var hasCompletedKYC: bool
    const store: Storage

    function Current(): Flags
      reads this
    {
      Flags(isAuthenticated, hasCompletedOnboarding, hasCompletedKYC)
    }

    /** All three flags start false; the effects have not run yet. */
    constructor(store: Storage)
      ensures Current() == SignedOut && this.store == store
    {
      isAuthenticated, hasCompletedOnboarding, hasCompletedKYC := false, false, false;
      this.store := store;
    }

    /** The save effect after a handler: it runs only when some flag
        differs from its value before the handler, and then overwrites the
        key with the current flags. */
    method SaveIfChanged(before: Flags)
      modifies store
      ensures Current() != before ==> store.entries == old(store.entries)[AuthKey := Json(Encode(Current()))]
      ensures Current() == before ==> store.entries == old(store.entries)
    {
      if Current() != before {
        store.entries := store.entries[AuthKey := Json(Encode(Current()))];
      }
    }

    /** The two mount effects in order: the load effect sets the flags from
        the stored entry (when it sets any), then the save effect's first
        run, and its re-run after the load, leave the key holding the
        current flags. */
    method Mount()
      requires Current() == SignedOut
      modifies this, store
      ensures var loaded := Decode(old(store.Get(AuthKey)));
              Current() == if loaded.Some? then loaded.value else SignedOut
      ensures store.entries == old(store.entries)[AuthKey := Json(Encode(Current()))]
    {
      var loaded := Decode(store.Get(AuthKey));
      // the save effect's first run writes the initial flags
      store.entries := store.entries[AuthKey := Json(Encode(Current()))];
      if loaded.Some? {
        var before := Current();
        isAuthenticated := loaded.value.isAuthenticated;
        hasCompletedOnboarding := loaded.value.hasCompletedOnboarding;
        hasCompletedKYC := loaded.value.hasCompletedKYC;
        SaveIfChanged(before);
      }
    }

    /** Sign in once the simulated delay has elapsed: accepted credentials
        set `isAuthenticated` and nothing else; rejected ones change no
        flag and nothing in the store. */
    method Login(email: string, password: string) returns (ok: bool)
      modifies this, store
      ensures ok == CredentialsAccepted(email, password)
      ensures ok ==> Current() == old(Current()).(isAuthenticated := true)
      ensures !ok ==> Current() == old(Current()) && store.entries == old(store.entries)
      ensures Current() != old(Current()) ==> store.entries == old(store.entries)[AuthKey := Json(Encode(Current()))]
      ensures Current() == old(Current()) ==> store.entries == old(store.entries)
    {
      var before := Current();
      ok := email != "" && Utf16Length(password) >= 6;
      if ok {
        isAuthenticated := true;
      }
      SaveIfChanged(before);
    }

    /** Clear all three flags and remove the key; when some flag was set,
        the save effect then writes the cleared flags back. */
    method Logout()
      modifies this, store
      ensures Current() == SignedOut
      ensures old(Current()) == SignedOut ==> store.entries == old(store.entries) - {AuthKey}
      ensures old(Current()) != SignedOut ==> store.entries == old(store.entries)[AuthKey := Json(Encode(SignedOut))]
    {
      var before := Current();
      isAuthenticated, hasCompletedOnboarding, hasCompletedKYC := false, false, false;
      store.entries := store.entries - {AuthKey};
      SaveIfChanged(before);
      assert before != SignedOut ==> store.entries == (old(store.entries) - {AuthKey})[AuthKey := Json(Encode(SignedOut))];
    }

    /** Set the onboarding flag; the other two are left alone. */
    method CompleteOnboarding()
      modifies this, store
      ensures Current() == old(Current()).(hasCompletedOnboarding := true)
      ensures Current() != old(Current()) ==> store.entries == old(store.entries)[AuthKey := Json(Encode(Current()))]
      ensures Current() == old(Current()) ==> store.entries == old(store.entries)
    {
      var before := Current();
      hasCompletedOnboarding := true;
      SaveIfChanged(before);
    }

    /** Set the KYC flag; the other two are left alone. */
    method CompleteKYC()
      modifies this, store
      ensures Current() == old(Current()).(hasCompletedKYC := true)
      ensures Current() != old(Current()) ==> store.entries == old(store.entries)[AuthKey := Json(Encode(Current()))]
      ensures Current() == old(Current()) ==> store.entries == old(store.entries)
    {
      var before := Current();
      hasCompletedKYC := true;
      SaveIfChanged(before);
    }
  }

  /** After logout, whichever way the key was left, a fresh session that
      mounts on the store loads all three flags as false. */
  lemma LogoutThenLoad(entries: map<string, Stored>, wasSignedOut: bool)
    requires wasSignedOut ==> AuthKey !in entries
    requires !wasSignedOut ==> AuthKey in entries && entries[AuthKey] == Json(Encode(SignedOut))
    ensures var loaded := Decode(if AuthKey in entries then Some(entries[AuthKey]) else None);
            (if loaded.Some? then loaded.value else SignedOut) == SignedOut
  {
    if !wasSignedOut {
      DecodeEncode(SignedOut);
    }
  }

  /** Completing onboarding twice leaves the same flags and the same store
      as completing it once. */
  method CompleteOnboardingTwice(s: Session)
    modifies s, s.store
    ensures s.Current() == old(s.Current()).(hasCompletedOnboarding := true)
  {
    s.CompleteOnboarding();
    var once := s.Current();
    var stored := s.store.entries;
    s.CompleteOnboarding();
    assert s.Current() == once && s.store.entries == stored;
  }
}
