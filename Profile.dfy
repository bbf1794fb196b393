/**
 * The seller profile store: `ProfileProvider` in src/context/ProfileContext.tsx and its
 * JavaScript twin src/context/ProfileContext.jsx. `updateProfile(updates)` replaces the
 * profile with the shallow merge `{ ...prev, ...updates }`.
 */
module Profile {
  import opened Wrappers

  /** `ProfileData`. Numbers are copied through untouched, so `real` stands for them. */
  datatype ProfileData = ProfileData(
    fullName: string,
    email: string,
    phone: string,
    address: string,
    totalSales: real,
    activeListings: real,
    sellerRating: real,
    notifications: bool)

  /** `Partial<ProfileData>`: `None` means the key is absent. */
  datatype ProfileUpdate = ProfileUpdate(
    fullName: Option<string>,
    email: Option<string>,
    phone: Option<string>,
    address: Option<string>,
    totalSales: Option<real>,
    activeListings: Option<real>,
    sellerRating: Option<real>,
    notifications: Option<bool>)

  /** `{}`: the update with no keys. */
  const NoUpdates: ProfileUpdate := ProfileUpdate(None, None, None, None, None, None, None, None)

  /** `initialProfile` (the address string is kept byte for byte, mis-encoding included). */
  const InitialProfile: ProfileData := ProfileData(
    "Carlos Mendoza", "carlos@example.com", "+52 555 123 4567", "Ciudad de MÃ©xico, MX",
    15400.0, 85.0, 4.8, true)

  /**
   * `{ ...prev, ...updates }`: every key present in the update takes the update's
   * value, every absent key keeps the previous one.
   */
  function Apply(prev: ProfileData, u: ProfileUpdate): (r: ProfileData)
    ensures u.fullName.Some? ==> r.fullName == u.fullName.value
    ensures u.fullName.None? ==> r.fullName == prev.fullName
    ensures u.email.Some? ==> r.email == u.email.value
    ensures u.email.None? ==> r.email == prev.email
    ensures u.phone.Some? ==> r.phone == u.phone.value
    ensures u.phone.None? ==> r.phone == prev.phone
    ensures u.address.Some? ==> r.address == u.address.value
    ensures u.address.None? ==> r.address == prev.address
    ensures u.totalSales.Some? ==> r.totalSales == u.totalSales.value
    ensures u.totalSales.None? ==> r.totalSales == prev.totalSales
    ensures u.activeListings.Some? ==> r.activeListings == u.activeListings.value
    ensures u.activeListings.None? ==> r.activeListings == prev.activeListings
    ensures u.sellerRating.Some? ==> r.sellerRating == u.sellerRating.value
    ensures u.sellerRating.None? ==> r.sellerRating == prev.sellerRating
    ensures u.notifications.Some? ==> r.notifications == u.notifications.value
    ensures u.notifications.None? ==> r.notifications == prev.notifications
  {
    ProfileData(
      u.fullName.GetOr(prev.fullName),
      u.email.GetOr(prev.email),
      u.phone.GetOr(prev.phone),
      u.address.GetOr(prev.address),
      u.totalSales.GetOr(prev.totalSales),
      u.activeListings.GetOr(prev.activeListings),
      u.sellerRating.GetOr(prev.sellerRating),
      u.notifications.GetOr(prev.notifications))
  }

  /** The right-biased merge of two updates, `{ ...u1, ...u2 }`. */
  function Override(u1: ProfileUpdate, u2: ProfileUpdate): ProfileUpdate {
    ProfileUpdate(
      if u2.fullName.Some? then u2.fullName else u1.fullName,
      if u2.email.Some? then u2.email else u1.email,
      if u2.phone.Some? then u2.phone else u1.phone,
      if u2.address.Some? then u2.address else u1.address,
      if u2.totalSales.Some? then u2.totalSales else u1.totalSales,
      if u2.activeListings.Some? then u2.activeListings else u1.activeListings,
      if u2.sellerRating.Some? then u2.sellerRating else u1.sellerRating,
      if u2.notifications.Some? then u2.notifications else u1.notifications)
  }

  /** `updateProfile({})` leaves the profile as it was. */
  lemma EmptyUpdateIsIdentity(p: ProfileData)
    ensures Apply(p, NoUpdates) == p
  {
  }

  /** Applying the same update twice is applying it once. */
  lemma ApplyIdempotent(p: ProfileData, u: ProfileUpdate)
    ensures Apply(Apply(p, u), u) == Apply(p, u)
  {
  }

  /** Two updates in a row are one update with the later value winning on overlap. */
  lemma ApplyCompose(p: ProfileData, u1: ProfileUpdate, u2: ProfileUpdate)
    ensures Apply(Apply(p, u1), u2) == Apply(p, Override(u1, u2))
  {
  }

  /** An update that sets every key replaces the whole profile, whatever it was. */
  lemma FullUpdateForgetsPrevious(p: ProfileData, q: ProfileData, u: ProfileUpdate)
    requires u.fullName.Some? && u.email.Some? && u.phone.Some? && u.address.Some?
    requires u.totalSales.Some? && u.activeListings.Some? && u.sellerRating.Some?
    requires u.notifications.Some?
    ensures Apply(p, u) == Apply(q, u)
  {
  }

  /** `ProfileProvider`: the `profile` state and `updateProfile`. */
  class ProfileStore {
    var profile: ProfileData

    /** `useState(initialProfile)`. */
    constructor ()
      ensures profile == InitialProfile
    {
      profile := InitialProfile;
    }

    /** `updateProfile`: replace the profile by the merge of the update into it. */
    method UpdateProfile(updates: ProfileUpdate)
      modifies this
      ensures profile == Apply(old(profile), updates)
    {
      profile := Apply(profile, updates);
    }
  }
}
