/**
 * The part of the cluster descriptor (the vlabs container-service document)
 * that the end-to-end engine reads or overwrites. Everything else in the
 * document is carried as an opaque payload and re-emitted unchanged.
 */
module Api {

  /** All fields of the document that the engine never looks at. */
  type Payload

  /** One agent pool: its node count and its OS type ("", "Linux" or "Windows"). */
  datatype AgentPoolProfile = AgentPoolProfile(count: int, osType: string)

  /** One entry of linuxProfile.ssh.publicKeys. */
  datatype PublicKey = PublicKey(keyData: string)

  /** The parsed descriptor as a value: what unmarshalling yields and marshalling consumes. */
  datatype Descriptor = Descriptor(
    masterCount: int,
    dnsPrefix: string,
    agentPools: seq<AgentPoolProfile>,
    clientID: string,
    secret: string,
    publicKeys: seq<PublicKey>,
    adminPassword: string,
    orchestratorRelease: string,
    rest: Payload)

  /**
   * The parsed descriptor as the object the engine holds a pointer to and
   * mutates in place; Snapshot() is its value.
   */
  class ContainerService {
    var masterCount: int
    var dnsPrefix: string
    var agentPools: seq<AgentPoolProfile>
    var clientID: string
    var secret: string
    var publicKeys: seq<PublicKey>
    var adminPassword: string
    var orchestratorRelease: string
    var rest: Payload

    function Snapshot(): (d: Descriptor)
      reads this
    {
      Descriptor(masterCount, dnsPrefix, agentPools, clientID, secret,
                 publicKeys, adminPassword, orchestratorRelease, rest)
    }

    /** Allocates the object that a successful unmarshal of `d` fills in. */
    constructor (d: Descriptor)
      ensures Snapshot() == d
    {
      masterCount := d.masterCount;
      dnsPrefix := d.dnsPrefix;
      agentPools := d.agentPools;
      clientID := d.clientID;
      secret := d.secret;
      publicKeys := d.publicKeys;
      adminPassword := d.adminPassword;
      orchestratorRelease := d.orchestratorRelease;
      rest := d.rest;
    }
  }
}
