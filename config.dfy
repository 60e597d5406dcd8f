/**
 * The configuration objects the build scripts read from `app-conf.js` and `module-conf.js`.
 * Fields the scripts only concatenate are strings; a field missing from a configuration file
 * is not distinguished from one that is present.
 */
module Config {

  /** One entry of `appConf.deploy`: the connection and path settings of one remote machine. */
  datatype TargetConf = TargetConf(
    host: string,
    port: string,
    user: string,
    pass: string,
    remotePath: string,
    domain: string,
    fdPath: string,
    cssi: string,
    assestPrefix: string,
    shtmlPrefix: string)

  /** `app-conf.js`: the app name, its remote machines by name and its modules in build order. */
  datatype AppConf = AppConf(app: string, deploy: map<string, TargetConf>, moduleList: seq<string>)

  /** `module-conf.js`: the module name (its `module` field) and the app it belongs to. */
  datatype ModuleConf = ModuleConf(moduleName: string, app: string)

  /** Connection parameters handed to a transfer: host, user, password, port and remote directory. */
  datatype DeployParams = DeployParams(host: string, user: string, pass: string, port: string, remotePath: string)
}
