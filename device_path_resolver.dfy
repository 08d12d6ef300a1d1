/** The virtio device path resolver: resolves a disk's real device path by its ID first and,
    when that fails, through the mapped resolver. Both inner resolvers are parameters. */
module DevicePathResolver {
  import opened Common

  /** The disk settings a resolver receives. */
  datatype DiskSettings = DiskSettings(id: string, volumeID: string, path: string)

  /** What a resolver returns: the real path, whether it gave up on a timeout, and the error. */
  datatype Resolution = Resolution(realPath: string, timeout: bool, err: Option<string>)

  /** A resolver: from disk settings to a resolution. */
  type Resolver = DiskSettings -> Resolution

  function GetRealDevicePath(settings: DiskSettings, byID: Resolver, mapped: Resolver): (r: Resolution)
    // the ID resolver wins whenever it succeeds
    ensures byID(settings).err.None? ==> r == Resolution(byID(settings).realPath, false, None)
    // otherwise the mapped resolver decides, and its failure is wrapped
    ensures byID(settings).err.Some? && mapped(settings).err.None? ==>
      r == Resolution(mapped(settings).realPath, false, None)
    ensures byID(settings).err.Some? && mapped(settings).err.Some? ==>
      r == Resolution("", mapped(settings).timeout, Some(Wrap("Resolving mapped device path", mapped(settings).err.value)))
    // a success never reports a timeout
    ensures r.err.None? ==> !r.timeout
    ensures r.err.None? <==> byID(settings).err.None? || mapped(settings).err.None?
  {
    var byIDResult := byID(settings);
    if byIDResult.err.None? then
      Resolution(byIDResult.realPath, false, None)
    else
      var mappedResult := mapped(settings);
      if mappedResult.err.Some? then
        Resolution("", mappedResult.timeout, Some(Wrap("Resolving mapped device path", mappedResult.err.value)))
      else
        Resolution(mappedResult.realPath, false, None)
  }

  /** When the ID resolver succeeds, the mapped resolver is not consulted: any other mapped
      resolver gives the same result. */
  lemma MappedUnusedAfterIDSuccess(settings: DiskSettings, byID: Resolver, mapped: Resolver, other: Resolver)
    requires byID(settings).err.None?
    ensures GetRealDevicePath(settings, byID, mapped) == GetRealDevicePath(settings, byID, other)
  {
  }

  /** The mapped resolver is only ever asked about the same disk settings. */
  lemma MappedAskedAboutSameDisk(settings: DiskSettings, byID: Resolver, mapped: Resolver, other: Resolver)
    requires mapped(settings) == other(settings)
    ensures GetRealDevicePath(settings, byID, mapped) == GetRealDevicePath(settings, byID, other)
  {
  }

  /** Only the ID resolver's error and path matter: its timeout flag never reaches the caller. */
  lemma IDTimeoutNeverReported(settings: DiskSettings, byID: Resolver, other: Resolver, mapped: Resolver)
    requires byID(settings).err == other(settings).err && byID(settings).realPath == other(settings).realPath
    ensures GetRealDevicePath(settings, byID, mapped) == GetRealDevicePath(settings, other, mapped)
  {
  }

  /** Every error carries the mapped resolver's error. */
  lemma ErrorCarriesMappedCause(settings: DiskSettings, byID: Resolver, mapped: Resolver)
    requires GetRealDevicePath(settings, byID, mapped).err.Some?
    ensures mapped(settings).err.Some?
    ensures Contains(GetRealDevicePath(settings, byID, mapped).err.value, mapped(settings).err.value)
  {
    WrapContainsCause("Resolving mapped device path", mapped(settings).err.value);
  }
}
