/** The Kafka part of the service configuration (Configuration.kt,
    `getKafkaConfig`). The configuration is a map from keys to strings.
    Reading the duration after which a stopped stream reports itself not
    ready is outside this model: its outcome is an input. */
module Configuration {
  import opened Common

  const BOOTSTRAP_SERVERS_KEY: string := "nav.kafka.bootstrap_servers"
  const TRUSTSTORE_PATH_KEY: string := "nav.kafka.truststore_path"
  const KEYSTORE_PATH_KEY: string := "nav.kafka.keystore_path"
  const CREDSTORE_PASSWORD_KEY: string := "nav.kafka.credstore_password"
  const AUTO_OFFSET_RESET_KEY: string := "nav.kafka.auto_offset_reset"

  /** A store path with its password. */
  datatype Lager = Lager(sti: string, passord: string)

  /** The arguments `getKafkaConfig` hands to the KafkaConfig constructor. */
  datatype KafkaInnstillinger = KafkaInnstillinger(
    bootstrapServers: string,
    keyStore: Option<Lager>,
    trustStore: Option<Lager>,
    exactlyOnce: bool,
    autoOffsetReset: string,
    unreadyAfterStreamStoppedIn: int)

  /** `getOptionalString`. */
  function Valgfri(config: map<string, string>, nokkel: string): (r: Option<string>)
    ensures r.Some? <==> nokkel in config
    ensures r.Some? ==> r.value == config[nokkel]
  {
    if nokkel in config then Some(config[nokkel]) else None
  }

  /** A store is configured only when both its path and the shared password
      are. */
  function LagerAv(sti: Option<string>, passord: Option<string>): (r: Option<Lager>)
    ensures r.Some? <==> sti.Some? && passord.Some?
    ensures r.Some? ==> r.value.sti == sti.value && r.value.passord == passord.value
  {
    match sti
    case None => None
    case Some(s) =>
      match passord
      case None => None
      case Some(p) => Some(Lager(s, p))
  }

  /** The accepted offset-reset values, lower-case. */
  predicate GyldigOffsetReset(v: string) {
    v == "none" || v == "latest" || v == "earliest"
  }

  /** The offset-reset setting: absent means "none"; "none", "latest" and
      "earliest" in any letter case are accepted and lower-cased; anything
      else is refused. */
  function AutoOffsetReset(verdi: Option<string>): (r: Result<string>)
    ensures verdi.None? ==> r == Ok("none")
    ensures verdi.Some? ==> (r.Ok? <==> GyldigOffsetReset(Lowercase(verdi.value)))
    ensures verdi.Some? && r.Ok? ==> r.value == Lowercase(verdi.value)
    ensures r.Ok? ==> GyldigOffsetReset(r.value)
    ensures r.Err? ==> r.error.IllegalArgumentException?
  {
    match verdi
    case None => Ok("none")
    case Some(v) =>
      var offsetReset := Lowercase(v);
      if GyldigOffsetReset(offsetReset) then Ok(offsetReset)
      else Err(IllegalArgumentException("Ugyldig verdi for nav.kafka.auto_offset_reset: " + offsetReset))
  }

  /** An accepted value is accepted again unchanged. */
  lemma AutoOffsetResetFastpunkt(verdi: Option<string>)
    requires AutoOffsetReset(verdi).Ok?
    ensures AutoOffsetReset(Some(AutoOffsetReset(verdi).value)) == AutoOffsetReset(verdi)
  {
    var v := AutoOffsetReset(verdi).value;
    assert Lowercase(v) == v by {
      if v == "none" {
        assert Lowercase("none") == "none";
      } else if v == "latest" {
        assert Lowercase("latest") == "latest";
      } else {
        assert Lowercase("earliest") == "earliest";
      }
    }
  }

  /** Only the lower-cased spelling matters: two values that lower-case
      alike give the same answer, accepted or refused. */
  lemma AutoOffsetResetStorBokstav(a: string, b: string)
    requires Lowercase(a) == Lowercase(b)
    ensures AutoOffsetReset(Some(a)) == AutoOffsetReset(Some(b))
  {
  }

  /** Example: an upper-case spelling is accepted and lower-cased. */
  lemma AutoOffsetResetEksempel()
    ensures AutoOffsetReset(Some("LATEST")) == Ok("latest")
  {
    assert Lowercase("LATEST") == "latest";
  }

  /** Example: a value Kafka itself would know but this code does not is
      refused. */
  lemma AutoOffsetResetUkjent()
    ensures AutoOffsetReset(Some("smallest")).Err?
  {
    assert Lowercase("smallest") == "smallest";
  }

  /** `getKafkaConfig`: the bootstrap servers are required; the stores are
      paired with the password; exactly-once processing exactly when a trust
      store is configured. Errors surface in evaluation order: the missing
      bootstrap servers, the offset reset, then the duration. */
  function GetKafkaConfig(config: map<string, string>, unreadyAfterStreamStoppedIn: Result<int>)
    : (r: Result<KafkaInnstillinger>)
    ensures BOOTSTRAP_SERVERS_KEY !in config ==> r.Err? && r.error.IllegalStateException?
    ensures r.Ok? <==>
              BOOTSTRAP_SERVERS_KEY in config
              && AutoOffsetReset(Valgfri(config, AUTO_OFFSET_RESET_KEY)).Ok?
              && unreadyAfterStreamStoppedIn.Ok?
    ensures BOOTSTRAP_SERVERS_KEY in config && AutoOffsetReset(Valgfri(config, AUTO_OFFSET_RESET_KEY)).Err? ==>
              r == Err(AutoOffsetReset(Valgfri(config, AUTO_OFFSET_RESET_KEY)).error)
    ensures r.Ok? ==> r.value.bootstrapServers == config[BOOTSTRAP_SERVERS_KEY]
    ensures r.Ok? ==> (r.value.trustStore.Some? <==> TRUSTSTORE_PATH_KEY in config && CREDSTORE_PASSWORD_KEY in config)
    ensures r.Ok? ==> (r.value.keyStore.Some? <==> KEYSTORE_PATH_KEY in config && CREDSTORE_PASSWORD_KEY in config)
    ensures r.Ok? ==> (r.value.exactlyOnce <==> r.value.trustStore.Some?)
    ensures r.Ok? ==> GyldigOffsetReset(r.value.autoOffsetReset)
    ensures r.Ok? ==> r.value.unreadyAfterStreamStoppedIn == unreadyAfterStreamStoppedIn.value
  {
    if BOOTSTRAP_SERVERS_KEY !in config then
      Err(IllegalStateException("Mangler påkrevd konfigurasjon " + BOOTSTRAP_SERVERS_KEY))
    else
      var passord := Valgfri(config, CREDSTORE_PASSWORD_KEY);
      var trustStore := LagerAv(Valgfri(config, TRUSTSTORE_PATH_KEY), passord);
      var keyStore := LagerAv(Valgfri(config, KEYSTORE_PATH_KEY), passord);
      match AutoOffsetReset(Valgfri(config, AUTO_OFFSET_RESET_KEY))
      case Err(e) => Err(e)
      case Ok(autoOffsetReset) =>
        match unreadyAfterStreamStoppedIn
        case Err(e) => Err(e)
        case Ok(unready) =>
          Ok(KafkaInnstillinger(config[BOOTSTRAP_SERVERS_KEY], keyStore, trustStore,
                                trustStore.Some?, autoOffsetReset, unready))
  }

  /** Both stores share the one password: with a password and both paths,
      the two stores carry the same password. */
  lemma LagreneDelerPassord(config: map<string, string>, unready: Result<int>)
    requires GetKafkaConfig(config, unready).Ok?
    ensures var k := GetKafkaConfig(config, unready).value;
            k.trustStore.Some? && k.keyStore.Some? ==>
              k.trustStore.value.passord == k.keyStore.value.passord == config[CREDSTORE_PASSWORD_KEY]
  {
  }
}

/** The Kafka Streams properties (kafka/KafkaConfig.kt): one Properties
    object is filled in by the constructor and then stamped with an
    application id, in place, by every `stream(name)` call. Properties are
    modelled as a map from key to string; the exception-handler class is
    its class name. */
module Kafka {
  import opened Common
  import opened Configuration

  const ID_PREFIX: string := "omsut-prs-"

  const BOOTSTRAP_SERVERS_CONFIG: string := "bootstrap.servers"
  const DEFAULT_DESERIALIZATION_EXCEPTION_HANDLER_CLASS_CONFIG: string := "default.deserialization.exception.handler"
  const AUTO_OFFSET_RESET_CONFIG: string := "auto.offset.reset"
  const SSL_TRUSTSTORE_TYPE_CONFIG: string := "ssl.truststore.type"
  const SECURITY_PROTOCOL_CONFIG: string := "security.protocol"
  const SSL_TRUSTSTORE_LOCATION_CONFIG: string := "ssl.truststore.location"
  const SSL_TRUSTSTORE_PASSWORD_CONFIG: string := "ssl.truststore.password"
  const SSL_KEYSTORE_TYPE_CONFIG: string := "ssl.keystore.type"
  const SSL_KEYSTORE_LOCATION_CONFIG: string := "ssl.keystore.location"
  const SSL_KEYSTORE_PASSWORD_CONFIG: string := "ssl.keystore.password"
  const PROCESSING_GUARANTEE_CONFIG: string := "processing.guarantee"
  const REPLICATION_FACTOR_CONFIG: string := "replication.factor"
  const APPLICATION_ID_CONFIG: string := "application.id"

  const LOG_AND_FAIL: string := "org.apache.kafka.streams.errors.LogAndFailExceptionHandler"
  const EXACTLY_ONCE_V2: string := "exactly_once_v2"
  const AT_LEAST_ONCE: string := "at_least_once"

  /** The keys the trust store adds, and those the key store adds. */
  const TRUSTSTORE_KEYS: set<string> :=
    {SSL_TRUSTSTORE_TYPE_CONFIG, SECURITY_PROTOCOL_CONFIG, SSL_TRUSTSTORE_LOCATION_CONFIG, SSL_TRUSTSTORE_PASSWORD_CONFIG}
  const KEYSTORE_KEYS: set<string> :=
    {SSL_KEYSTORE_TYPE_CONFIG, SSL_KEYSTORE_LOCATION_CONFIG, SSL_KEYSTORE_PASSWORD_CONFIG}

  /** `File(path).absolutePath`: a relative path is resolved against the
      working directory, and the empty path is the working directory itself. */
  function AbsolutePath(arbeidskatalog: string, sti: string): (r: string)
    ensures |sti| > 0 && sti[0] == '/' ==> r == sti
    ensures sti == "" ==> r == arbeidskatalog
    ensures |sti| > 0 && sti[0] != '/' ==> r == arbeidskatalog + "/" + sti
  {
    if sti == "" then arbeidskatalog
    else if sti[0] == '/' then sti
    else arbeidskatalog + "/" + sti
  }

  /** The properties the constructor leaves behind. */
  function Egenskaper(bootstrapServers: string, keyStore: Option<Lager>, trustStore: Option<Lager>,
                      exactlyOnce: bool, autoOffsetReset: string, arbeidskatalog: string): map<string, string>
  {
    var grunn := map[BOOTSTRAP_SERVERS_CONFIG := bootstrapServers,
                     DEFAULT_DESERIALIZATION_EXCEPTION_HANDLER_CLASS_CONFIG := LOG_AND_FAIL,
                     AUTO_OFFSET_RESET_CONFIG := autoOffsetReset];
    var medTrust := MedTrustStore(grunn, trustStore, arbeidskatalog);
    var medKey := MedKeyStore(medTrust, keyStore, arbeidskatalog);
    MedProcessingGuarantee(medKey, exactlyOnce)
  }

  function MedTrustStore(p: map<string, string>, trustStore: Option<Lager>, arbeidskatalog: string): map<string, string> {
    match trustStore
    case None => p
    case Some(t) =>
      p[SSL_TRUSTSTORE_TYPE_CONFIG := "jks"]
       [SECURITY_PROTOCOL_CONFIG := "SSL"]
       [SSL_TRUSTSTORE_LOCATION_CONFIG := AbsolutePath(arbeidskatalog, t.sti)]
       [SSL_TRUSTSTORE_PASSWORD_CONFIG := t.passord]
  }

  function MedKeyStore(p: map<string, string>, keyStore: Option<Lager>, arbeidskatalog: string): map<string, string> {
    match keyStore
    case None => p
    case Some(k) =>
      p[SSL_KEYSTORE_TYPE_CONFIG := "PKCS12"]
       [SSL_KEYSTORE_LOCATION_CONFIG := AbsolutePath(arbeidskatalog, k.sti)]
       [SSL_KEYSTORE_PASSWORD_CONFIG := k.passord]
  }

  function MedProcessingGuarantee(p: map<string, string>, exactlyOnce: bool): map<string, string> {
    if exactlyOnce then p[PROCESSING_GUARANTEE_CONFIG := EXACTLY_ONCE_V2][REPLICATION_FACTOR_CONFIG := "3"]
    else p[PROCESSING_GUARANTEE_CONFIG := AT_LEAST_ONCE]
  }

  /** What the constructor promises: the fixed entries, the stores' entries
      exactly when the stores are given, and the processing guarantee. */
  lemma EgenskaperInnhold(bootstrapServers: string, keyStore: Option<Lager>, trustStore: Option<Lager>,
                          exactlyOnce: bool, autoOffsetReset: string, arbeidskatalog: string)
    ensures var p := Egenskaper(bootstrapServers, keyStore, trustStore, exactlyOnce, autoOffsetReset, arbeidskatalog);
            && p[BOOTSTRAP_SERVERS_CONFIG] == bootstrapServers
            && p[DEFAULT_DESERIALIZATION_EXCEPTION_HANDLER_CLASS_CONFIG] == LOG_AND_FAIL
            && p[AUTO_OFFSET_RESET_CONFIG] == autoOffsetReset
            && (exactlyOnce ==> p[PROCESSING_GUARANTEE_CONFIG] == EXACTLY_ONCE_V2 && p[REPLICATION_FACTOR_CONFIG] == "3")
            && (!exactlyOnce ==> p[PROCESSING_GUARANTEE_CONFIG] == AT_LEAST_ONCE && REPLICATION_FACTOR_CONFIG !in p)
            && (TRUSTSTORE_KEYS <= p.Keys <==> trustStore.Some?)
            && (KEYSTORE_KEYS <= p.Keys <==> keyStore.Some?)
            && APPLICATION_ID_CONFIG !in p
  {
  }

  /** The trust store's entries. */
  lemma EgenskaperTrustStore(bootstrapServers: string, keyStore: Option<Lager>, t: Lager,
                             exactlyOnce: bool, autoOffsetReset: string, arbeidskatalog: string)
    ensures var p := Egenskaper(bootstrapServers, keyStore, Some(t), exactlyOnce, autoOffsetReset, arbeidskatalog);
            && p[SSL_TRUSTSTORE_TYPE_CONFIG] == "jks"
            && p[SECURITY_PROTOCOL_CONFIG] == "SSL"
            && p[SSL_TRUSTSTORE_LOCATION_CONFIG] == AbsolutePath(arbeidskatalog, t.sti)
            && p[SSL_TRUSTSTORE_PASSWORD_CONFIG] == t.passord
  {
  }

  /** The key store's entries. */
  lemma EgenskaperKeyStore(bootstrapServers: string, k: Lager, trustStore: Option<Lager>,
                           exactlyOnce: bool, autoOffsetReset: string, arbeidskatalog: string)
    ensures var p := Egenskaper(bootstrapServers, Some(k), trustStore, exactlyOnce, autoOffsetReset, arbeidskatalog);
            && p[SSL_KEYSTORE_TYPE_CONFIG] == "PKCS12"
            && p[SSL_KEYSTORE_LOCATION_CONFIG] == AbsolutePath(arbeidskatalog, k.sti)
            && p[SSL_KEYSTORE_PASSWORD_CONFIG] == k.passord
  {
  }

  class KafkaConfig {
    /** The one Properties object every stream is configured with. */
    var streams: map<string, string>
    const unreadyAfterStreamStoppedIn: int

    /** Puts the fixed entries, then the stores' and the guarantee's. The
        working directory resolves relative store paths. */
    constructor(bootstrapServers: string, keyStore: Option<Lager>, trustStore: Option<Lager>,
                exactlyOnce: bool, autoOffsetReset: string, unreadyAfterStreamStoppedIn: int,
                arbeidskatalog: string)
      ensures streams == Egenskaper(bootstrapServers, keyStore, trustStore, exactlyOnce, autoOffsetReset, arbeidskatalog)
      ensures this.unreadyAfterStreamStoppedIn == unreadyAfterStreamStoppedIn
    {
      this.unreadyAfterStreamStoppedIn := unreadyAfterStreamStoppedIn;
      streams := map[];
      new;
      streams := streams[BOOTSTRAP_SERVERS_CONFIG := bootstrapServers];
      streams := streams[DEFAULT_DESERIALIZATION_EXCEPTION_HANDLER_CLASS_CONFIG := LOG_AND_FAIL];
      streams := streams[AUTO_OFFSET_RESET_CONFIG := autoOffsetReset];
      PutTrustStore(trustStore, arbeidskatalog);
      PutKeyStore(keyStore, arbeidskatalog);
      PutProcessingGuarantee(exactlyOnce);
    }

    /** `medTrustStore`. */
    method PutTrustStore(trustStore: Option<Lager>, arbeidskatalog: string)
      modifies this
      ensures streams == MedTrustStore(old(streams), trustStore, arbeidskatalog)
    {
      if trustStore.Some? {
        var t := trustStore.value;
        streams := streams[SSL_TRUSTSTORE_TYPE_CONFIG := "jks"];
        streams := streams[SECURITY_PROTOCOL_CONFIG := "SSL"];
        streams := streams[SSL_TRUSTSTORE_LOCATION_CONFIG := AbsolutePath(arbeidskatalog, t.sti)];
        streams := streams[SSL_TRUSTSTORE_PASSWORD_CONFIG := t.passord];
      }
    }

    /** `medKeyStore`. */
    method PutKeyStore(keyStore: Option<Lager>, arbeidskatalog: string)
      modifies this
      ensures streams == MedKeyStore(old(streams), keyStore, arbeidskatalog)
    {
      if keyStore.Some? {
        var k := keyStore.value;
        streams := streams[SSL_KEYSTORE_TYPE_CONFIG := "PKCS12"];
        streams := streams[SSL_KEYSTORE_LOCATION_CONFIG := AbsolutePath(arbeidskatalog, k.sti)];
        streams := streams[SSL_KEYSTORE_PASSWORD_CONFIG := k.passord];
      }
    }

    /** `medProcessingGuarantee`. */
    method PutProcessingGuarantee(exactlyOnce: bool)
      modifies this
      ensures streams == MedProcessingGuarantee(old(streams), exactlyOnce)
    {
      if exactlyOnce {
        streams := streams[PROCESSING_GUARANTEE_CONFIG := EXACTLY_ONCE_V2];
        streams := streams[REPLICATION_FACTOR_CONFIG := "3"];
      } else {
        streams := streams[PROCESSING_GUARANTEE_CONFIG := AT_LEAST_ONCE];
      }
    }

    /** `stream(name)`: stamps the shared properties with the stream's
        application id and hands back the same object. */
    method Stream(name: string) returns (p: KafkaConfig)
      modifies this
      ensures p == this
      ensures streams == old(streams)[APPLICATION_ID_CONFIG := ID_PREFIX + name]
      ensures streams[APPLICATION_ID_CONFIG] == ID_PREFIX + name
      ensures forall k :: k in old(streams) && k != APPLICATION_ID_CONFIG ==> k in streams && streams[k] == old(streams)[k]
    {
      streams := streams[APPLICATION_ID_CONFIG := ID_PREFIX + name];
      p := this;
    }
  }

  /** Two streams configured one after the other share one Properties
      object: the first stream's reference sees the second stream's id. */
  method ToStrommer(config: KafkaConfig, forste: string, andre: string)
    returns (a: KafkaConfig, b: KafkaConfig)
    modifies config
    ensures a == b == config
    ensures APPLICATION_ID_CONFIG in a.streams && a.streams[APPLICATION_ID_CONFIG] == ID_PREFIX + andre
    ensures forall k :: k in old(config.streams) && k != APPLICATION_ID_CONFIG ==>
              k in a.streams && a.streams[k] == old(config.streams)[k]
  {
    a := config.Stream(forste);
    b := config.Stream(andre);
  }

  /** `getKafkaConfig` followed by the constructor. */
  method LagKafkaConfig(config: map<string, string>, unreadyAfterStreamStoppedIn: Result<int>, arbeidskatalog: string)
    returns (r: Result<KafkaConfig>)
    ensures r.Ok? <==> GetKafkaConfig(config, unreadyAfterStreamStoppedIn).Ok?
    ensures r.Err? ==> r.error == GetKafkaConfig(config, unreadyAfterStreamStoppedIn).error
    ensures r.Ok? ==> fresh(r.value)
    ensures r.Ok? ==>
              var k := GetKafkaConfig(config, unreadyAfterStreamStoppedIn).value;
              r.value.streams == Egenskaper(k.bootstrapServers, k.keyStore, k.trustStore, k.exactlyOnce, k.autoOffsetReset, arbeidskatalog)
  {
    match GetKafkaConfig(config, unreadyAfterStreamStoppedIn)
    case Err(e) =>
      r := Err(e);
    case Ok(k) =>
      var c := new KafkaConfig(k.bootstrapServers, k.keyStore, k.trustStore, k.exactlyOnce, k.autoOffsetReset,
                               k.unreadyAfterStreamStoppedIn, arbeidskatalog);
      r := Ok(c);
  }
}
