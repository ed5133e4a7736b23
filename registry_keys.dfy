/**
 * The registry keys the optimizer opens. Each fixed key is named by what it holds,
 * and `HiveOf` and `PathOf` give its hive and path as the optimizer spells them; the
 * per-interface keys sit under the TCP/IP `Interfaces` key. The sixteen fixed paths
 * are pairwise different and none lies under `Interfaces`, so everywhere else a key
 * is identified by its name.
 */
module RegistryKeys {
  datatype Hive = LocalMachine | CurrentUser

  datatype RegKey =
    | ProcessorKey
    | GamesTaskKey
    | AmdCoreParkingKey
    | PowerThrottlingKey
    | ProcessorPerformanceKey
    | DirectXKey
    | NvTweakKey
    | DisplayAdapterKey
    | GraphicsDriversKey
    | MemoryManagementKey
    | DiskTimeoutKey
    | FileSystemKey
    | TcpipParametersKey
    | PschedKey
    | DnscacheParametersKey
    | InterfacesKey
      /** `Interfaces\<subkey>`, one per network interface. */
    | InterfaceKey(subkey: string)

  const InterfacesPath := "SYSTEM\\CurrentControlSet\\Services\\Tcpip\\Parameters\\Interfaces"

  /** Only the DirectX preferences live in the current user's hive. */
  function HiveOf(k: RegKey): Hive {
    if k == DirectXKey then CurrentUser else LocalMachine
  }

  function PathOf(k: RegKey): string {
    match k
    case ProcessorKey => "SYSTEM\\CurrentControlSet\\Control\\Processor"
    case GamesTaskKey => "SOFTWARE\\Microsoft\\Windows NT\\CurrentVersion\\Multimedia\\SystemProfile\\Tasks\\Games"
    case AmdCoreParkingKey =>
      "SYSTEM\\CurrentControlSet\\Control\\Power\\PowerSettings\\54533251-82be-4824-96c1-47b60b740d00\\be337238-0d82-4146-a960-4f3749d470c7"
    case PowerThrottlingKey => "SYSTEM\\CurrentControlSet\\Control\\Power\\PowerThrottling"
    case ProcessorPerformanceKey =>
      "SYSTEM\\CurrentControlSet\\Control\\Power\\PowerSettings\\54533251-82be-4824-96c1-47b60b740d00\\bc5038f7-23e0-4960-96da-33abaf5935ec"
    case DirectXKey => "Software\\Microsoft\\DirectX\\UserGpuPreferences"
    case NvTweakKey => "SOFTWARE\\NVIDIA Corporation\\Global\\NVTweak"
    case DisplayAdapterKey => "SYSTEM\\CurrentControlSet\\Control\\Class\\{4d36e968-e325-11ce-bfc1-08002be10318}\\0000"
    case GraphicsDriversKey => "SYSTEM\\CurrentControlSet\\Control\\GraphicsDrivers"
    case MemoryManagementKey => "SYSTEM\\CurrentControlSet\\Control\\Session Manager\\Memory Management"
    case DiskTimeoutKey => "SYSTEM\\CurrentControlSet\\Services\\disk\\TimeOutValue"
    case FileSystemKey => "SYSTEM\\CurrentControlSet\\Control\\FileSystem"
    case TcpipParametersKey => "SYSTEM\\CurrentControlSet\\Services\\Tcpip\\Parameters"
    case PschedKey => "SOFTWARE\\Policies\\Microsoft\\Windows\\Psched"
    case DnscacheParametersKey => "SYSTEM\\CurrentControlSet\\Services\\Dnscache\\Parameters"
    case InterfacesKey => InterfacesPath
    case InterfaceKey(subkey) => InterfacesPath + "\\" + subkey
  }
}
