/** Token lengths and lifetimes, in milliseconds, as the application configures them,
    and the deployment settings read from the environment. */
module AppConfig {

  const VERIFICATION_TOKEN_LENGTH: nat := 48
  const VERIFICATION_TOKEN_MAX_AGE_MS: nat := 1000 * 60 * 60 * 24 * 7
  const RESET_PASSWORD_TOKEN_LENGTH: nat := 48
  const RESET_PASSWORD_TOKEN_MAX_AGE_MS: nat := 1000 * 60 * 10
  const ACCESS_TOKEN_EXPIRES_IN_MS: nat := 30 * 60 * 1000
  const REFRESH_TOKEN_EXPIRES_IN_MS: nat := 7 * 24 * 60 * 60 * 1000

  /** Deployment settings read from the environment. */
  datatype Env = Env(
    accessTokenSecret: string,
    refreshTokenSecret: string,
    appOrigin: string,
    baseUrl: string,
    useLocalS3: bool,
    s3Endpoint: string,
    s3Bucket: string,
    awsRegion: string)

  /** Lifetimes written as the products above come to seven days, ten minutes,
      thirty minutes and seven days. */
  lemma Lifetimes()
    ensures VERIFICATION_TOKEN_MAX_AGE_MS == 604800000
    ensures RESET_PASSWORD_TOKEN_MAX_AGE_MS == 600000
    ensures ACCESS_TOKEN_EXPIRES_IN_MS == 1800000
    ensures REFRESH_TOKEN_EXPIRES_IN_MS == 604800000
    ensures VERIFICATION_TOKEN_LENGTH == RESET_PASSWORD_TOKEN_LENGTH == 48
  {
  }
}
