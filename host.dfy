/**
 * The Home Assistant and library objects the current integration reads:
 * a config entry with its versioned `data` and `options` dictionaries, and
 * the library's vehicles and instruments, reduced to the fields used here.
 */
module Host {
  import opened PyValue

  const DOMAIN: string := "volkswagencarnet"

  /** A dashboard instrument: its vehicle's VIN, platform, attribute, slug and display name. */
  datatype Instrument = Instrument(vin: string, component: string, attr: string, slugAttr: string, name: string)

  /** A vehicle of the connection, with the instruments of its dashboard. */
  datatype Vehicle = Vehicle(vin: string, instruments: seq<Instrument>)

  /** A config entry; `async_update_entry` replaces `data` and `options` whole. */
  class ConfigEntry {
    const entryId: string
    const domain: string
    const prefDisableNewEntities: bool
    var version: int
    var data: map<string, Value>
    var options: map<string, Value>

    constructor (entryId: string, domain: string, version: int, data: map<string, Value>,
                 options: map<string, Value>, prefDisableNewEntities: bool)
      ensures this.entryId == entryId && this.domain == domain && this.version == version
      ensures this.data == data && this.options == options
      ensures this.prefDisableNewEntities == prefDisableNewEntities
    {
      this.entryId := entryId;
      this.domain := domain;
      this.version := version;
      this.data := data;
      this.options := options;
      this.prefDisableNewEntities := prefDisableNewEntities;
    }
  }
}
